/**
 * The controller's application table (src/controller/jrtc_int.c): 64 slots
 * holding the environments of loaded applications, handed out circularly
 * from `next_available_app_env`, plus the string helper `concat`.
 *
 * Memory is modelled by handles: every environment `calloc` creates gets the
 * next handle, and every `free` of an environment is logged. A table is
 * accounted for when each handle ever created is either held by exactly one
 * slot or freed exactly once. Library loading, thread creation and joining
 * are abstracted as the results they return (`Host`, `UnloadHost`).
 */
module ControllerApps {
  import opened Wrappers
  import opened Sched

  /** `concat`: a fresh string holding `s1` followed by `s2`. */
  function Concat(s1: string, s2: string): (r: string)
    ensures |r| == |s1| + |s2|
    ensures r[..|s1|] == s1 && r[|s1|..] == s2
  {
    s1 + s2
  }

  /** The cases of the `concat` unit test. */
  lemma ConcatExamples()
    ensures Concat("Hello, ", "World!") == "Hello, World!"
    ensures Concat("", "World!") == "World!"
    ensures Concat("Hello, ", "") == "Hello, "
    ensures Concat("", "") == ""
    ensures Concat("Hello\n", "World\t!") == "Hello\nWorld\t!"
  {
  }

  /** `MAX_NUM_JRTC_APPS`. */
  const MAX_NUM_JRTC_APPS := 64

  type u32 = n: int | 0 <= n < 0x1_0000_0000

  /** A key/value pair of an application's parameters; either side may be NULL. */
  datatype Param = Param(key: Option<string>, val: Option<string>)

  /** `load_app_request_t`: the image is `app` (NULL is `None`) of `appSize` bytes. */
  datatype LoadRequest = LoadRequest(
    app: Option<seq<bv8>>, appSize: nat, appName: Option<string>,
    runtimeUs: u32, deadlineUs: u32, periodUs: u32, ioqSize: u32,
    appPath: Option<string>, params: seq<Param>, modules: seq<Option<string>>)

  /** `struct jrtc_app_env`, identified by the handle of its allocation. */
  datatype AppEnv = AppEnv(
    handle: nat, name: Option<string>, library: Option<nat>, ioqSize: nat,
    sched: SchedConfig, appPath: Option<string>, params: seq<Param>, modules: seq<Option<string>>)

  /** A zeroed environment, as `calloc` returns it. */
  function EmptyEnv(handle: nat): AppEnv
  {
    AppEnv(handle, None, None, 0, SchedConfig(JRTC_SCHED_NORMAL, 0, 0, 0, 0), None, [], [])
  }

  /**
   * The environment filled from a request once its library is loaded: the
   * deadline policy only when a deadline is given, the name "jrtc_app" when
   * none is given. As written the request's path is not recorded.
   */
  function Configured(env: AppEnv, req: LoadRequest, library: nat): AppEnv
  {
    env.(library := Some(library), ioqSize := req.ioqSize, params := req.params, modules := req.modules,
         sched := SchedConfig(if req.deadlineUs > 0 then JRTC_SCHED_DEADLINE else env.sched.policy,
                              env.sched.priority, req.runtimeUs, req.deadlineUs, req.periodUs),
         name := Some(if req.appName.None? then "jrtc_app" else req.appName.value))
  }

  /** The same, recording the request's path so that a second load of it is refused. */
  function ConfiguredWithPath(env: AppEnv, req: LoadRequest, library: nat): AppEnv
  {
    Configured(env, req, library).(appPath := req.appPath)
  }

  /** The global state: `app_envs`, `next_available_app_env`, the handles created so far, the frees. */
  datatype Table = Table(slots: seq<Option<AppEnv>>, next: int, created: nat, freed: seq<nat>)

  predicate Wf(t: Table)
  {
    |t.slots| == MAX_NUM_JRTC_APPS && 0 <= t.next < MAX_NUM_JRTC_APPS
  }

  /** The table at start-up. */
  function Initial(): (t: Table)
    ensures Wf(t)
  {
    Table(seq(MAX_NUM_JRTC_APPS, _ => None), 0, 0, [])
  }

  /** The handle held by a slot, if any. */
  function Holds(o: Option<AppEnv>): multiset<nat>
  {
    if o.Some? then multiset{o.value.handle} else multiset{}
  }

  /** The handles held by the slots. */
  function Held(s: seq<Option<AppEnv>>): multiset<nat>
  {
    if s == [] then multiset{} else Holds(s[0]) + Held(s[1..])
  }

  /** The handles `0 .. n-1`. */
  function Handles(n: nat): multiset<nat>
  {
    if n == 0 then multiset{} else Handles(n - 1) + multiset{n - 1}
  }

  /** Each environment ever created is held by exactly one slot or freed exactly once. */
  predicate Accounted(t: Table)
  {
    multiset(t.freed) + Held(t.slots) == Handles(t.created)
  }

  /** Swapping the outer terms of a sum of three multisets. */
  lemma SwapOuter(a: multiset<nat>, b: multiset<nat>, c: multiset<nat>)
    ensures a + b + c == c + b + a
  {
  }

  lemma {:induction false} HeldUpdate(s: seq<Option<AppEnv>>, k: nat, x: Option<AppEnv>)
    requires k < |s|
    ensures Held(s[k := x]) + Holds(s[k]) == Held(s) + Holds(x)
  {
    var s' := s[k := x];
    assert Held(s') == Holds(s'[0]) + Held(s'[1..]);
    assert Held(s) == Holds(s[0]) + Held(s[1..]);
    if k > 0 {
      assert s'[0] == s[0] && s[1..][k - 1] == s[k];
      assert s'[1..] == s[1..][k - 1 := x];
      HeldUpdate(s[1..], k - 1, x);
      var h, h' := Held(s[1..]), Held(s'[1..]);
      assert h' + Holds(s[k]) == h + Holds(x);
      assert Held(s') + Holds(s[k]) == Holds(s[0]) + (h' + Holds(s[k]));
    } else {
      assert s'[1..] == s[1..] && s'[0] == x;
      SwapOuter(Holds(x), Held(s[1..]), Holds(s[0]));
    }
  }

  /** The initial table is accounted for. */
  lemma InitialAccounted()
    ensures Accounted(Initial())
  {
    var s: seq<Option<AppEnv>> := seq(MAX_NUM_JRTC_APPS, _ => None);
    var k := 0;
    while k < |s|
      invariant 0 <= k <= |s|
      invariant Held(s[|s| - k..]) == multiset{}
    {
      assert s[|s| - k - 1..] == [None] + s[|s| - k..];
      k := k + 1;
    }
    assert s[0..] == s;
  }

  /** The slot `j` places after `next`, going round the table. */
  function Circular(next: int, j: int): int
  {
    (next + j) % MAX_NUM_JRTC_APPS
  }

  /**
   * The offset, counted from `next`, of the first free slot at offset `i` or
   * later: the circular scan of `_jrtc_reserve_app_id`.
   */
  function FreeOffset(s: seq<Option<AppEnv>>, next: int, i: nat): (r: Option<nat>)
    requires |s| == MAX_NUM_JRTC_APPS && i <= MAX_NUM_JRTC_APPS
    ensures r.Some? ==> i <= r.value < MAX_NUM_JRTC_APPS && s[Circular(next, r.value)].None?
    ensures r.Some? ==> forall j :: i <= j < r.value ==> s[Circular(next, j)].Some?
    ensures r.None? ==> forall j :: i <= j < MAX_NUM_JRTC_APPS ==> s[Circular(next, j)].Some?
    decreases MAX_NUM_JRTC_APPS - i
  {
    if i == MAX_NUM_JRTC_APPS then None
    else if s[Circular(next, i)].None? then Some(i)
    else FreeOffset(s, next, i + 1)
  }

  /** `_jrtc_reserve_app_id`: the slot chosen (or -1) and the new table. */
  function Reserve(t: Table, env: AppEnv): (r: (int, Table))
    requires Wf(t)
    ensures Wf(r.1) && (r.0 == -1 || 0 <= r.0 < MAX_NUM_JRTC_APPS)
  {
    match FreeOffset(t.slots, t.next, 0)
    case None => (-1, t)
    case Some(j) =>
      var k := Circular(t.next, j);
      (k, t.(slots := t.slots[k := Some(env)], next := (k + 1) % MAX_NUM_JRTC_APPS))
  }

  /** `_jrtc_release_app_id`: frees and clears an occupied slot in range, otherwise does nothing. */
  function Release(t: Table, id: int): (t': Table)
    requires Wf(t)
    ensures Wf(t')
  {
    if 0 <= id < MAX_NUM_JRTC_APPS && t.slots[id].Some? then
      t.(slots := t.slots[id := None], freed := t.freed + [t.slots[id].value.handle])
    else t
  }

  /** Going round from `next`, the offset of slot `k` is `(k - next) % 64`. */
  lemma CircularOffset(next: int, k: int)
    requires 0 <= next < MAX_NUM_JRTC_APPS && 0 <= k < MAX_NUM_JRTC_APPS
    ensures 0 <= (k - next) % MAX_NUM_JRTC_APPS < MAX_NUM_JRTC_APPS
    ensures Circular(next, (k - next) % MAX_NUM_JRTC_APPS) == k
  {
    if k >= next {
      assert (k - next) % MAX_NUM_JRTC_APPS == k - next;
    } else {
      assert (k - next) % MAX_NUM_JRTC_APPS == k - next + MAX_NUM_JRTC_APPS;
    }
  }

  /** And the offset of the slot `j` places on is `j`. */
  lemma OffsetOfCircular(next: int, j: int)
    requires 0 <= next < MAX_NUM_JRTC_APPS && 0 <= j < MAX_NUM_JRTC_APPS
    ensures 0 <= Circular(next, j) < MAX_NUM_JRTC_APPS
    ensures (Circular(next, j) - next) % MAX_NUM_JRTC_APPS == j
  {
    if next + j < MAX_NUM_JRTC_APPS {
      assert Circular(next, j) == next + j;
    } else {
      assert Circular(next, j) == next + j - MAX_NUM_JRTC_APPS;
    }
  }

  /** Reservation fails exactly when every slot is occupied, and then changes nothing. */
  lemma ReserveIffFull(t: Table, env: AppEnv)
    requires Wf(t)
    ensures Reserve(t, env).0 == -1 <==> forall k :: 0 <= k < MAX_NUM_JRTC_APPS ==> t.slots[k].Some?
    ensures Reserve(t, env).0 == -1 ==> Reserve(t, env).1 == t
  {
    match FreeOffset(t.slots, t.next, 0)
    case None =>
      forall k | 0 <= k < MAX_NUM_JRTC_APPS
        ensures t.slots[k].Some?
      {
        CircularOffset(t.next, k);
      }
    case Some(j) =>
      OffsetOfCircular(t.next, j);
  }

  /**
   * Otherwise it stores into the first free slot going round from `next`:
   * the slots it passes over are occupied, and `next` moves past the one taken.
   */
  lemma ReserveTakesFirstFree(t: Table, env: AppEnv)
    requires Wf(t) && Reserve(t, env).0 != -1
    ensures var (id, t') := Reserve(t, env);
      0 <= id < MAX_NUM_JRTC_APPS && t.slots[id].None? &&
      (forall j :: 0 <= j < (id - t.next) % MAX_NUM_JRTC_APPS ==> t.slots[Circular(t.next, j)].Some?) &&
      t' == t.(slots := t.slots[id := Some(env)], next := (id + 1) % MAX_NUM_JRTC_APPS)
  {
    var j := FreeOffset(t.slots, t.next, 0).value;
    OffsetOfCircular(t.next, j);
  }

  /** Release does nothing to an out-of-range id or an empty slot, and otherwise frees exactly that slot's environment. */
  lemma ReleaseEffect(t: Table, id: int)
    requires Wf(t)
    ensures !(0 <= id < MAX_NUM_JRTC_APPS && t.slots[id].Some?) ==> Release(t, id) == t
    ensures 0 <= id < MAX_NUM_JRTC_APPS && t.slots[id].Some? ==>
      Release(t, id).slots[id].None? && multiset(Release(t, id).freed) == multiset(t.freed) + multiset{t.slots[id].value.handle} &&
      forall k :: 0 <= k < MAX_NUM_JRTC_APPS && k != id ==> Release(t, id).slots[k] == t.slots[k]
  {
  }

  /** Reserving a freshly created environment keeps the table accounted for. */
  lemma ReserveAccounted(t: Table, env: AppEnv)
    requires Wf(t) && t.created > 0 && env.handle == t.created - 1
    requires multiset(t.freed) + Held(t.slots) + multiset{env.handle} == Handles(t.created)
    ensures Reserve(t, env).0 >= 0 ==> Accounted(Reserve(t, env).1)
  {
    var (id, t') := Reserve(t, env);
    if id >= 0 {
      ReserveTakesFirstFree(t, env);
      HeldUpdate(t.slots, id, Some(env));
      assert Holds(t.slots[id]) == multiset{};
      assert Held(t'.slots) == Held(t.slots) + multiset{env.handle};
    }
  }

  /** Releasing keeps the table accounted for. */
  lemma ReleaseAccounted(t: Table, id: int)
    requires Wf(t) && Accounted(t)
    ensures Accounted(Release(t, id))
  {
    if 0 <= id < MAX_NUM_JRTC_APPS && t.slots[id].Some? {
      var h := t.slots[id].value.handle;
      var t' := Release(t, id);
      HeldUpdate(t.slots, id, None);
      assert Held(t'.slots) + multiset{h} == Held(t.slots);
      assert multiset(t'.freed) == multiset(t.freed) + multiset{h};
    }
  }

  /** Replacing a slot's environment by one with the same handle keeps the table accounted for. */
  lemma ReplaceAccounted(t: Table, id: nat, env: AppEnv)
    requires Wf(t) && Accounted(t) && id < MAX_NUM_JRTC_APPS
    requires t.slots[id].Some? && t.slots[id].value.handle == env.handle
    ensures Accounted(t.(slots := t.slots[id := Some(env)]))
  {
    HeldUpdate(t.slots, id, Some(env));
    assert Holds(t.slots[id]) == Holds(Some(env));
    Cancel(Held(t.slots[id := Some(env)]), Held(t.slots), Holds(Some(env)));
  }

  lemma Cancel(a: multiset<nat>, b: multiset<nat>, c: multiset<nat>)
    requires a + c == b + c
    ensures a == b
  {
    forall x
      ensures a[x] == b[x]
    {
      assert (a + c)[x] == (b + c)[x];
    }
  }

  /** `_is_app_loaded(p)`: some occupied slot records the path `p`. */
  function Loaded(s: seq<Option<AppEnv>>, p: string): (b: bool)
    ensures b <==> exists k :: 0 <= k < |s| && s[k].Some? && s[k].value.appPath == Some(p)
  {
    if s == [] then false
    else if s[0].Some? && s[0].value.appPath == Some(p) then true
    else
      var b := Loaded(s[1..], p);
      assert b ==> exists k :: 0 <= k < |s| && s[k].Some? && s[k].value.appPath == Some(p) by {
        if b {
          var k :| 0 <= k < |s[1..]| && s[1..][k].Some? && s[1..][k].value.appPath == Some(p);
          assert s[k + 1] == s[1..][k];
        }
      }
      assert (exists k :: 0 <= k < |s| && s[k].Some? && s[k].value.appPath == Some(p)) ==> b by {
        if exists k :: 0 <= k < |s| && s[k].Some? && s[k].value.appPath == Some(p) {
          var k :| 0 <= k < |s| && s[k].Some? && s[k].value.appPath == Some(p);
          assert k > 0 && s[1..][k - 1] == s[k];
        }
      }
      b
  }

  /** What the calls `load_app` makes return: `calloc`, loading the library from memory, `pthread_create`. */
  datatype Host = Host(callocOk: bool, library: Option<nat>, threadStarted: bool)

  /**
   * `load_app` as written: the return code and the new table. It returns -1
   * or a slot, a refused request changes nothing, and a slot returned holds
   * an environment whose app path is never set.
   */
  function LoadAsWritten(t: Table, req: LoadRequest, host: Host): (r: (int, Table))
    requires Wf(t)
    ensures r.0 == -1 || 0 <= r.0 < MAX_NUM_JRTC_APPS
    ensures Refused(t, req, host) ==> r == (-1, t)
    ensures 0 <= r.0 ==> |r.1.slots| == MAX_NUM_JRTC_APPS && r.1.slots[r.0].Some? && r.1.slots[r.0].value.appPath.None?
  {
    if Refused(t, req, host) then (-1, t)
    else
      var env := EmptyEnv(t.created);
      var (id, t1) := Reserve(t.(created := t.created + 1), env);
      InstallAsWritten(t1, id, env, req, host)
  }

  /**
   * The rest of `load_app` as written, once slot `id` (or -1) has been
   * reserved for `env`: without a slot nothing changes, so `env` is neither
   * held nor freed; otherwise it returns the slot, filled, or -1 with
   * `env`'s handle freed last.
   */
  function InstallAsWritten(t1: Table, id: int, env: AppEnv, req: LoadRequest, host: Host): (r: (int, Table))
    requires Wf(t1) && id < MAX_NUM_JRTC_APPS
    ensures id < 0 ==> r == (-1, t1)
    ensures r.0 == -1 || r.0 == id
    ensures 0 <= id && r.0 == id ==> host.library.Some? && r.1.slots == t1.slots[id := Some(Configured(env, req, host.library.value))]
    ensures 0 <= id && r.0 == -1 ==> |r.1.freed| > 0 && r.1.freed[|r.1.freed| - 1] == env.handle
  {
    if id < 0 then (-1, t1)                        // the environment is leaked
    else if host.library.None? then
      var t2 := Release(t1, id);
      (-1, t2.(freed := t2.freed + [env.handle]))  // freed by the release and again directly
    else
      var t2 := t1.(slots := t1.slots[id := Some(Configured(env, req, host.library.value))]);
      if !host.threadStarted then
        var t3 := Release(t2, id);
        (-1, t3.(freed := t3.freed + [env.handle]))
      else (id, t2)
  }


  /**
   * `load_app` with the environment freed once on every error path, freed
   * when no slot is free, and its path recorded.
   */
  function Load(t: Table, req: LoadRequest, host: Host): (r: (int, Table))
    requires Wf(t)
    ensures Wf(r.1)
    ensures r.0 == -1 || 0 <= r.0 < MAX_NUM_JRTC_APPS
  {
    if Refused(t, req, host) then (-1, t)
    else
      var env := EmptyEnv(t.created);
      var (id, t1) := Reserve(t.(created := t.created + 1), env);
      Install(t1, id, env, req, host)
  }

  /** The guards `load_app` checks before reserving a slot: the image, the path, the allocation. */
  predicate Refused(t: Table, req: LoadRequest, host: Host)
  {
    req.app.None? || req.appSize == 0 || (req.appPath.Some? && Loaded(t.slots, req.appPath.value)) || !host.callocOk
  }

  /** The rest of `load_app` once slot `id` (or -1) has been reserved for `env`. */
  function Install(t1: Table, id: int, env: AppEnv, req: LoadRequest, host: Host): (r: (int, Table))
    requires Wf(t1) && id < MAX_NUM_JRTC_APPS
    ensures Wf(r.1)
    ensures r.0 == -1 || 0 <= r.0 < MAX_NUM_JRTC_APPS
  {
    if id < 0 then (-1, t1.(freed := t1.freed + [env.handle]))
    else if host.library.None? then (-1, Release(t1, id))
    else
      var t2 := t1.(slots := t1.slots[id := Some(ConfiguredWithPath(env, req, host.library.value))]);
      if !host.threadStarted then (-1, Release(t2, id))
      else (id, t2)
  }


  /** A missing image and a path already loaded are refused without any change. */
  lemma LoadRejects(t: Table, req: LoadRequest, host: Host)
    requires Wf(t)
    requires req.app.None? || req.appSize == 0 || (req.appPath.Some? && Loaded(t.slots, req.appPath.value))
    ensures Load(t, req, host) == (-1, t)
  {
  }

  /**
   * A successful load stores the configured environment in the returned
   * slot, which was free, and changes no other slot; its policy is DEADLINE
   * exactly when a deadline is given, and its name defaults to "jrtc_app".
   */
  lemma LoadSucceeds(t: Table, req: LoadRequest, host: Host)
    requires Wf(t)
    ensures var (rc, t') := Load(t, req, host);
      rc >= 0 ==>
        t.slots[rc].None? && t'.slots[rc].Some? &&
        (forall k :: 0 <= k < MAX_NUM_JRTC_APPS && k != rc ==> t'.slots[k] == t.slots[k]) &&
        var env := t'.slots[rc].value;
        env.handle == t.created && env.library == host.library &&
        (env.sched.policy == JRTC_SCHED_DEADLINE <==> req.deadlineUs > 0) &&
        (req.deadlineUs == 0 ==> env.sched.policy == JRTC_SCHED_NORMAL) &&
        env.sched.deadlineUs == req.deadlineUs && env.sched.runtimeUs == req.runtimeUs && env.sched.periodUs == req.periodUs &&
        env.name == Some(if req.appName.None? then "jrtc_app" else req.appName.value) &&
        env.appPath == req.appPath && env.params == req.params && env.ioqSize == req.ioqSize
  {
    var env := EmptyEnv(t.created);
    ReserveIffFull(t.(created := t.created + 1), env);
  }

  /** A load succeeds exactly when the image is given, its path is new, and every step works with a free slot. */
  lemma LoadSucceedsIff(t: Table, req: LoadRequest, host: Host)
    requires Wf(t)
    ensures Load(t, req, host).0 >= 0 <==>
      req.app.Some? && req.appSize > 0 && !(req.appPath.Some? && Loaded(t.slots, req.appPath.value)) &&
      host.callocOk && host.library.Some? && host.threadStarted &&
      exists k :: 0 <= k < MAX_NUM_JRTC_APPS && t.slots[k].None?
  {
    ReserveIffFull(t.(created := t.created + 1), EmptyEnv(t.created));
  }

  /** Loading keeps the table accounted for, whatever the outcome. */
  lemma LoadAccounted(t: Table, req: LoadRequest, host: Host)
    requires Wf(t) && Accounted(t)
    ensures Accounted(Load(t, req, host).1)
  {
    if !Refused(t, req, host) {
      var env := EmptyEnv(t.created);
      var r := Reserve(t.(created := t.created + 1), env);
      assert Load(t, req, host) == Install(r.1, r.0, env, req, host);
      AllocateAndInstallAccounted(t, env, r, req, host);
    }
  }

  /** Allocating a fresh environment, reserving a slot for it and installing it keeps the table accounted for. */
  lemma AllocateAndInstallAccounted(t: Table, env: AppEnv, r: (int, Table), req: LoadRequest, host: Host)
    requires Wf(t) && Accounted(t)
    requires env == EmptyEnv(t.created) && r == Reserve(t.(created := t.created + 1), env)
    ensures Accounted(Install(r.1, r.0, env, req, host).1)
  {
    var ta := t.(created := t.created + 1);
    FreshHandle(t);
    if r.0 < 0 {
      ReserveIffFull(ta, env);
      NoSlotAccounted(ta, env.handle);
    } else {
      ReserveAccounted(ta, env);
      ReserveTakesFirstFree(ta, env);
      InstallAccounted(r.1, r.0, env, req, host);
    }
  }

  /** Creating an environment adds the next handle to those to account for. */
  lemma FreshHandle(t: Table)
    requires Accounted(t)
    ensures multiset(t.freed) + Held(t.slots) + multiset{t.created} == Handles(t.created + 1)
  {
  }

  /** An environment freed as soon as it is created leaves the table accounted for. */
  lemma NoSlotAccounted(t: Table, h: nat)
    requires multiset(t.freed) + Held(t.slots) + multiset{h} == Handles(t.created)
    ensures Accounted(t.(freed := t.freed + [h]))
  {
    assert multiset(t.freed + [h]) == multiset(t.freed) + multiset{h};
  }

  /** Installing a reserved environment keeps the table accounted for. */
  lemma InstallAccounted(t1: Table, id: nat, env: AppEnv, req: LoadRequest, host: Host)
    requires Wf(t1) && Accounted(t1) && id < MAX_NUM_JRTC_APPS && t1.slots[id] == Some(env)
    ensures Accounted(Install(t1, id, env, req, host).1)
  {
    if host.library.None? {
      ReleaseAccounted(t1, id);
    } else {
      var env' := ConfiguredWithPath(env, req, host.library.value);
      ReplaceAccounted(t1, id, env');
      ReleaseAccounted(t1.(slots := t1.slots[id := Some(env')]), id);
    }
  }

  /** Once a path is loaded, loading it again is refused and changes nothing. */
  lemma SecondLoadRefused(t: Table, req: LoadRequest, host: Host, req2: LoadRequest, host2: Host)
    requires Wf(t) && req.appPath.Some? && req2.appPath == req.appPath
    requires Load(t, req, host).0 >= 0
    ensures var t' := Load(t, req, host).1; Load(t', req2, host2) == (-1, t')
  {
    LoadSucceeds(t, req, host);
    var (rc, t') := Load(t, req, host);
    assert t'.slots[rc].Some? && t'.slots[rc].value.appPath == req.appPath;
  }

  /** A request with an image and a path, and a host on which every step works. */
  function SampleRequest(): LoadRequest
  {
    LoadRequest(Some([0x7f]), 1, None, 0, 0, 0, 1000, Some("app.so"), [], [])
  }

  /** As written, a failed library load frees the environment twice. */
  lemma LoadAsWrittenFreesTwice()
    ensures var t' := LoadAsWritten(Initial(), SampleRequest(), Host(true, None, true)).1;
      multiset(t'.freed)[0] == 2 && !Accounted(t')
  {
    var t := Initial();
    var ta := t.(created := 1);
    assert t.slots[0].None?;
    assert FreeOffset(ta.slots, 0, 0) == Some(0);
    var t' := LoadAsWritten(t, SampleRequest(), Host(true, None, true)).1;
    assert t'.freed == [0, 0];
    assert multiset(t'.freed)[0] == 2;
    assert Handles(1)[0] == 1;
  }

  /**
   * As written, an environment created when every slot is occupied is
   * neither held nor freed: the table is no longer accounted for.
   */
  lemma LoadAsWrittenLeaks(t: Table, req: LoadRequest, host: Host)
    requires Wf(t) && Accounted(t) && forall k :: 0 <= k < MAX_NUM_JRTC_APPS ==> t.slots[k].Some?
    requires req.app.Some? && req.appSize > 0 && req.appPath.None? && host.callocOk
    ensures var (rc, t') := LoadAsWritten(t, req, host);
      rc == -1 && t' == t.(created := t.created + 1) && !Accounted(t')
  {
    var ta := t.(created := t.created + 1);
    assert LoadAsWritten(t, req, host) == (-1, ta) by {
      ReserveIffFull(ta, EmptyEnv(t.created));
    }
    assert !Accounted(ta) by {
      assert Handles(t.created + 1)[t.created] == Handles(t.created)[t.created] + 1;
    }
  }

  /** Slots that record no path hold no loaded path. */
  lemma NoPathNotLoaded(s: seq<Option<AppEnv>>, p: string)
    requires forall k :: 0 <= k < |s| ==> s[k].None? || s[k].value.appPath.None?
    ensures !Loaded(s, p)
  {
  }

  /** As written, the path is never recorded, so the same path loads twice. */
  lemma LoadAsWrittenAcceptsSamePathTwice()
    ensures var (rc1, t1) := LoadAsWritten(Initial(), SampleRequest(), Host(true, Some(1), true));
      rc1 == 0 && LoadAsWritten(t1, SampleRequest(), Host(true, Some(2), true)).0 == 1
  {
    var t := Initial();
    var req := SampleRequest();
    assert FreeOffset(t.slots, 0, 0) == Some(0);
    NoPathNotLoaded(t.slots, "app.so");
    var env0 := EmptyEnv(0);
    var slots1 := t.slots[0 := Some(Configured(env0, req, 1))];
    var t1 := Table(slots1, 1, 1, []);
    var r := Reserve(t.(created := 1), env0);
    assert r == (0, Table(t.slots[0 := Some(env0)], 1, 1, []));
    assert t.slots[0 := Some(env0)][0 := Some(Configured(env0, req, 1))] == slots1;
    assert LoadAsWritten(t, req, Host(true, Some(1), true)) == InstallAsWritten(r.1, 0, env0, req, Host(true, Some(1), true));
    NoPathNotLoaded(slots1, "app.so");
    assert FreeOffset(slots1, 1, 0) == Some(0);
    assert Reserve(t1.(created := 2), EmptyEnv(1)).0 == 1;
  }

  /** What `unload_app` observes: whether joining the thread and closing the library work. */
  datatype UnloadHost = UnloadHost(joined: bool, closed: bool)

  /** How `unload_app` ends. */
  datatype UnloadOutcome = Returned(rc: int) | Aborted

  /**
   * `unload_app` as written: `None` when the id lies outside the table,
   * where `app_envs[app_id]` reads beyond the array.
   */
  function UnloadAsWritten(t: Table, id: int, host: UnloadHost): (r: Option<(UnloadOutcome, Table)>)
    requires Wf(t)
    ensures r.None? <==> !(0 <= id < MAX_NUM_JRTC_APPS)
    ensures r.Some? && r.value.0 == Returned(0) ==> t.slots[id].Some? && r.value.1.slots == t.slots[id := None]
    ensures r.Some? && r.value.0 != Returned(0) ==> r.value.1 == t
  {
    if !(0 <= id < MAX_NUM_JRTC_APPS) then None
    else if t.slots[id].None? then Some((Returned(-1), t))
    else if !host.joined || !host.closed then Some((Aborted, t))
    else Some((Returned(0), Release(t, id)))
  }

  /** `unload_app` with the id checked against the table. */
  function Unload(t: Table, id: int, host: UnloadHost): (r: (UnloadOutcome, Table))
    requires Wf(t)
    ensures Wf(r.1)
  {
    if !(0 <= id < MAX_NUM_JRTC_APPS) || t.slots[id].None? then (Returned(-1), t)
    else if !host.joined || !host.closed then (Aborted, t)
    else (Returned(0), Release(t, id))
  }

  /** As written, unloading id 64 is undefined; checked, it returns -1 and changes nothing. */
  lemma UnloadOutOfRange(t: Table, host: UnloadHost)
    requires Wf(t)
    ensures UnloadAsWritten(t, MAX_NUM_JRTC_APPS, host).None?
    ensures Unload(t, MAX_NUM_JRTC_APPS, host) == (Returned(-1), t)
    ensures Unload(t, -1, host) == (Returned(-1), t)
  {
  }

  /** Unloading agrees with the code as written wherever that is defined. */
  lemma UnloadAgreesInRange(t: Table, id: int, host: UnloadHost)
    requires Wf(t) && 0 <= id < MAX_NUM_JRTC_APPS
    ensures UnloadAsWritten(t, id, host) == Some(Unload(t, id, host))
  {
  }

  /** Unloading an occupied slot frees its environment and empties the slot; it keeps the table accounted for. */
  lemma UnloadEffect(t: Table, id: int, host: UnloadHost)
    requires Wf(t) && Accounted(t)
    ensures var (o, t') := Unload(t, id, host);
      Accounted(t') &&
      (o == Returned(0) <==> 0 <= id < MAX_NUM_JRTC_APPS && t.slots[id].Some? && host.joined && host.closed) &&
      (o == Returned(0) ==> t'.slots == t.slots[id := None] && t'.freed == t.freed + [t.slots[id].value.handle]) &&
      (o != Returned(0) ==> t' == t)
  {
    ReleaseAccounted(t, id);
  }

  /** Loading then unloading the returned slot frees the new environment and restores the slots. */
  lemma LoadThenUnload(t: Table, req: LoadRequest, host: Host)
    requires Wf(t)
    requires Load(t, req, host).0 >= 0
    ensures var (rc, t1) := Load(t, req, host); var (o, t2) := Unload(t1, rc, UnloadHost(true, true));
      o == Returned(0) && t2.slots == t.slots && t2.freed == t.freed + [t.created]
  {
    LoadSucceeds(t, req, host);
    var (rc, t1) := Load(t, req, host);
    assert t1.slots[rc := None] == t.slots;
  }

  /** The controller's global application state. */
  class Controller {
    const slots: array<Option<AppEnv>>
    var next: int
    var created: nat
    var freed: seq<nat>

    function Snapshot(): Table
      reads this, slots
    {
      Table(slots[..], next, created, freed)
    }

    ghost predicate Valid()
      reads this
    {
      slots.Length == MAX_NUM_JRTC_APPS && 0 <= next < MAX_NUM_JRTC_APPS
    }

    constructor ()
      ensures Valid() && Snapshot() == Initial() && fresh(slots)
    {
      slots := new Option<AppEnv>[MAX_NUM_JRTC_APPS](_ => None);
      next := 0;
      created := 0;
      freed := [];
    }

    /** `_jrtc_reserve_app_id`. */
    method ReserveAppId(env: AppEnv) returns (id: int)
      requires Valid()
      modifies this, slots
      ensures Valid()
      ensures (id, Snapshot()) == Reserve(old(Snapshot()), env)
    {
      var i := 0;
      while i < MAX_NUM_JRTC_APPS
        invariant 0 <= i <= MAX_NUM_JRTC_APPS
        invariant Snapshot() == old(Snapshot())
        invariant FreeOffset(slots[..], next, 0) == FreeOffset(slots[..], next, i)
      {
        var index := (next + i) % MAX_NUM_JRTC_APPS;
        if slots[index].None? {
          slots[index] := Some(env);
          next := (index + 1) % MAX_NUM_JRTC_APPS;
          return index;
        }
        i := i + 1;
      }
      return -1;
    }

    /** `_jrtc_release_app_id`. */
    method ReleaseAppId(id: int)
      requires Valid()
      modifies this, slots
      ensures Valid()
      ensures Snapshot() == Release(old(Snapshot()), id)
    {
      if 0 <= id < MAX_NUM_JRTC_APPS {
        if slots[id].None? {
          return;
        }
        freed := freed + [slots[id].value.handle];
        slots[id] := None;
      }
    }

    /** `_is_app_loaded`. */
    method IsAppLoaded(path: string) returns (b: bool)
      requires Valid()
      ensures b == Loaded(slots[..], path)
    {
      for i := 0 to MAX_NUM_JRTC_APPS
        invariant forall k :: 0 <= k < i ==> !(slots[k].Some? && slots[k].value.appPath == Some(path))
      {
        if slots[i].None? {
          continue;
        }
        if slots[i].value.appPath.Some? {
          if slots[i].value.appPath.value == path {
            return true;
          }
        }
      }
      return false;
    }

    /** `load_app`, freeing the environment once on each error path. */
    method LoadApp(req: LoadRequest, host: Host) returns (rc: int)
      requires Valid()
      modifies this, slots
      ensures Valid()
      ensures (rc, Snapshot()) == Load(old(Snapshot()), req, host)
    {
      if req.app.None? || req.appSize == 0 {
        return -1;
      }
      if req.appPath.Some? {
        var loaded := IsAppLoaded(req.appPath.value);
        if loaded {
          return -1;
        }
      }
      if !host.callocOk {
        return -1;
      }
      var env := EmptyEnv(created);
      created := created + 1;
      var id := ReserveAppId(env);
      if id < 0 {
        freed := freed + [env.handle];
        return -1;
      }
      if host.library.None? {
        ReleaseAppId(id);
        return -1;
      }
      slots[id] := Some(ConfiguredWithPath(env, req, host.library.value));
      if !host.threadStarted {
        ReleaseAppId(id);
        return -1;
      }
      return id;
    }

    /** `unload_app`, with the id checked against the table. */
    method UnloadApp(id: int, host: UnloadHost) returns (o: UnloadOutcome)
      requires Valid()
      modifies this, slots
      ensures Valid()
      ensures (o, Snapshot()) == Unload(old(Snapshot()), id, host)
    {
      if !(0 <= id < MAX_NUM_JRTC_APPS) || slots[id].None? {
        return Returned(-1);
      }
      if !host.joined || !host.closed {
        return Aborted;
      }
      ReleaseAppId(id);
      return Returned(0);
    }
  }
}
