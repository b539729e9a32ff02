/**
 * The controller's configuration file (src/controller/jrtc_config.c):
 * `${NAME}` expansion of scalar values, the built-in defaults, and the
 * state machine that walks the YAML event stream and fills in the
 * configuration. The YAML parser is abstracted as the list of events it
 * yields; the process environment is a map.
 */
module JrtcConfig {
  import opened Wrappers
  import DecimalText

  // ---- expand_env_vars (jrtc_config.c:16-68) ----

  /** `getenv`: the value of a variable, or "" when it is not set. */
  function Lookup(env: map<string, string>, name: string): string
  {
    if name in env then env[name] else ""
  }

  /** The index of the first '}' in `s` at or after `i`, if any. */
  function CloseBrace(s: string, i: nat): (r: Option<nat>)
    requires i <= |s|
    ensures r.Some? ==> i <= r.value < |s| && s[r.value] == '}'
    decreases |s| - i
  {
    if i == |s| then None
    else if s[i] == '}' then Some(i)
    else CloseBrace(s, i + 1)
  }

  /** No '}' comes before the one `CloseBrace` finds, and none at all when it finds none. */
  lemma {:induction false} CloseBraceIsFirst(s: string, i: nat)
    requires i <= |s|
    ensures var r := CloseBrace(s, i); '}' !in s[i..if r.Some? then r.value else |s|]
    decreases |s| - i
  {
    if i < |s| && s[i] != '}' {
      CloseBraceIsFirst(s, i + 1);
      var r := CloseBrace(s, i);
      var k := if r.Some? then r.value else |s|;
      assert s[i..k] == [s[i]] + s[i + 1..k];
    }
  }

  /** The name of a match of `\$\{([^}]+)\}` starting at `q`, if one starts there. */
  function MatchAt(s: string, q: nat): (r: Option<string>)
    requires q <= |s|
    ensures r.Some? ==>
      q + 3 + |r.value| <= |s| && s[q] == '$' && s[q + 1] == '{' && r.value != [] &&
      s[q + 2..q + 2 + |r.value|] == r.value && '}' !in r.value && s[q + 2 + |r.value|] == '}'
  {
    if q + 2 <= |s| && s[q] == '$' && s[q + 1] == '{' then
      CloseBraceIsFirst(s, q + 2);
      match CloseBrace(s, q + 2)
      case Some(e) => if e > q + 2 then Some(s[q + 2..e]) else None
      case None => None
    else None
  }

  /** A match starts at `q` exactly when `${`, a non-empty run without '}', and '}' start there. */
  lemma MatchAtIff(s: string, q: nat)
    requires q <= |s|
    ensures MatchAt(s, q).Some? <==>
      q + 3 < |s| && s[q] == '$' && s[q + 1] == '{' && s[q + 2] != '}' && '}' in s[q + 2..]
  {
    if q + 2 <= |s| {
      CloseBraceIsFirst(s, q + 2);
    }
  }

  /** The leftmost match at or after `q`: its position and the variable name. */
  function Leftmost(s: string, q: nat): (r: Option<(nat, string)>)
    requires q <= |s|
    ensures r.Some? ==> q <= r.value.0 <= |s| && MatchAt(s, r.value.0) == Some(r.value.1)
    decreases |s| - q
  {
    match MatchAt(s, q)
    case Some(n) => Some((q, n))
    case None => if q == |s| then None else Leftmost(s, q + 1)
  }

  /** No match starts before the leftmost one, and none at all when there is none. */
  lemma {:induction false} LeftmostFirst(s: string, q: nat)
    requires q <= |s|
    ensures Leftmost(s, q).Some? ==> forall j :: q <= j < Leftmost(s, q).value.0 ==> MatchAt(s, j).None?
    ensures Leftmost(s, q).None? ==> forall j :: q <= j <= |s| ==> MatchAt(s, j).None?
    decreases |s| - q
  {
    if MatchAt(s, q).None? && q < |s| {
      LeftmostFirst(s, q + 1);
    }
  }

  /** A match with none before it is the leftmost. */
  lemma {:induction false} LeftmostAt(s: string, q: nat, p: nat)
    requires q <= p <= |s| && MatchAt(s, p).Some?
    requires forall j :: q <= j < p ==> MatchAt(s, j).None?
    ensures Leftmost(s, q) == Some((p, MatchAt(s, p).value))
    decreases p - q
  {
    if q < p {
      LeftmostAt(s, q + 1, p);
    }
  }

  /**
   * The text with the match of `name` at `p` replaced by the variable's
   * value: the text loses the match's 3 + |name| characters and gains the
   * value's, none for an unset variable.
   */
  function Substitute(s: string, p: nat, name: string, env: map<string, string>): (r: string)
    requires p + 3 + |name| <= |s|
    ensures |r| == |s| - (3 + |name|) + |Lookup(env, name)|
  {
    s[..p] + Lookup(env, name) + s[p + 3 + |name|..]
  }

  /** A substitution keeps the text before and after the match, with the value between them. */
  lemma SubstituteKeepsContext(s: string, p: nat, name: string, env: map<string, string>)
    requires p + 3 + |name| <= |s|
    ensures var r := Substitute(s, p, name, env);
      r[..p] == s[..p] && r[p..p + |Lookup(env, name)|] == Lookup(env, name) &&
      r[p + |Lookup(env, name)|..] == s[p + 3 + |name|..]
  {
  }

  /** The longest variable name the fixed `var_name[256]` buffer holds with its terminator. */
  const MAX_VAR_NAME := 255

  /** No `${name}` is left in `t`. */
  ghost predicate Unmatched(t: string)
  {
    forall j :: 0 <= j <= |t| ==> MatchAt(t, j).None?
  }

  /** How an expansion ends. */
  datatype Expansion =
    | Done(text: string)  // no match is left
    | Overflow            // a name of 256 characters or more overruns `var_name`
    | Diverged            // still substituting when the fuel ran out

  /**
   * The expansion loop: while the text matches, replace the leftmost match
   * and scan again from the start. `fuel` bounds the number of substitutions.
   */
  function Expand(s: string, env: map<string, string>, fuel: nat): (r: Expansion)
    ensures r.Done? ==> Unmatched(r.text)
    decreases fuel
  {
    match Leftmost(s, 0)
    case None => LeftmostFirst(s, 0); Done(s)
    case Some((p, name)) =>
      if |name| > MAX_VAR_NAME then Overflow
      else if fuel == 0 then Diverged
      else Expand(Substitute(s, p, name, env), env, fuel - 1)
  }

  /** Text without a match is returned as an equal copy, whatever the fuel. */
  lemma ExpandNoMatch(s: string, env: map<string, string>, fuel: nat)
    requires Unmatched(s)
    ensures Expand(s, env, fuel) == Done(s)
  {
  }

  /** The leftmost match is replaced and the scan restarts at the front. */
  lemma ExpandStep(s: string, env: map<string, string>, fuel: nat, p: nat, name: string)
    requires p <= |s| && MatchAt(s, p) == Some(name) && |name| <= MAX_VAR_NAME
    requires forall j :: 0 <= j < p ==> MatchAt(s, j).None?
    ensures Expand(s, env, fuel + 1) == Expand(Substitute(s, p, name, env), env, fuel)
  {
    LeftmostAt(s, 0, p);
  }

  /** `${A}`, with `A` set to `${A}`, substitutes forever. */
  lemma {:induction false} SelfReferenceDiverges(fuel: nat)
    ensures Expand("${A}", map["A" := "${A}"], fuel) == Diverged
    decreases fuel
  {
    var s := "${A}";
    assert MatchAt(s, 0) == Some("A") by {
      assert CloseBrace(s, 3) == Some(3);
      assert CloseBrace(s, 2) == Some(3);
      assert s[2..3] == "A";
    }
    assert Leftmost(s, 0) == Some((0, "A"));
    if fuel > 0 {
      assert Substitute(s, 0, "A", map["A" := "${A}"]) == s;
      SelfReferenceDiverges(fuel - 1);
    }
  }

  /** A substituted value is scanned again: `${A}` with `A` set to `${B}` and `B` to `x` gives `x`. */
  lemma SubstitutedValueExpandsAgain()
    ensures Expand("${A}", map["A" := "${B}", "B" := "x"], 2) == Done("x")
  {
    var env := map["A" := "${B}", "B" := "x"];
    assert MatchAt("${A}", 0) == Some("A") by {
      assert CloseBrace("${A}", 3) == Some(3);
      assert CloseBrace("${A}", 2) == Some(3);
      assert "${A}"[2..3] == "A";
    }
    assert Leftmost("${A}", 0) == Some((0, "A"));
    assert Substitute("${A}", 0, "A", env) == "${B}";
    assert MatchAt("${B}", 0) == Some("B") by {
      assert CloseBrace("${B}", 3) == Some(3);
      assert CloseBrace("${B}", 2) == Some(3);
      assert "${B}"[2..3] == "B";
    }
    assert Leftmost("${B}", 0) == Some((0, "B"));
    assert Substitute("${B}", 0, "B", env) == "x";
    assert Leftmost("x", 0).None? by {
      assert MatchAt("x", 0).None? && MatchAt("x", 1).None?;
    }
  }

  /** An unset variable becomes the empty string: `${NONEXISTENT_VAR}` expands to "". */
  lemma UnsetVariableIsEmpty(env: map<string, string>)
    requires "V" !in env
    ensures Expand("${V}", env, 1) == Done("")
  {
    assert MatchAt("${V}", 0) == Some("V") by {
      assert CloseBrace("${V}", 3) == Some(3);
      assert CloseBrace("${V}", 2) == Some(3);
      assert "${V}"[2..3] == "V";
    }
    assert Leftmost("${V}", 0) == Some((0, "V"));
    assert Substitute("${V}", 0, "V", env) == "";
  }

  /** How `Expand` ends, or goes on, after finding the leftmost match of the text. */
  lemma ExpandLeftmost(s: string, env: map<string, string>, fuel: nat)
    ensures Leftmost(s, 0).None? ==> Expand(s, env, fuel) == Done(s)
    ensures Leftmost(s, 0).Some? && |Leftmost(s, 0).value.1| > MAX_VAR_NAME ==> Expand(s, env, fuel) == Overflow
    ensures Leftmost(s, 0).Some? && |Leftmost(s, 0).value.1| <= MAX_VAR_NAME && fuel == 0 ==> Expand(s, env, fuel) == Diverged
  {
  }

  /** Below the fuel, the leftmost match is substituted and the expansion goes on. */
  lemma ExpandAt(s: string, env: map<string, string>, fuel: nat, p: nat, name: string)
    requires Leftmost(s, 0) == Some((p, name)) && |name| <= MAX_VAR_NAME && fuel > 0
    ensures p + 3 + |name| <= |s|
    ensures Expand(s, env, fuel) == Expand(Substitute(s, p, name, env), env, fuel - 1)
  {
  }

  /** `expand_env_vars`: `None` for a NULL input. */
  method ExpandEnvVars(input: Option<string>, env: map<string, string>, fuel: nat) returns (r: Option<Expansion>)
    ensures input.None? <==> r.None?
    ensures input.Some? ==> r == Some(Expand(input.value, env, fuel))
  {
    if input.None? {
      return None;
    }
    var expanded := input.value;
    var f := fuel;
    var m := Leftmost(expanded, 0);
    while m.Some? && |m.value.1| <= MAX_VAR_NAME && f > 0
      invariant m == Leftmost(expanded, 0)
      invariant Expand(input.value, env, fuel) == Expand(expanded, env, f)
      decreases f
    {
      var p, name := m.value.0, m.value.1;
      ExpandAt(expanded, env, f, p, name);
      expanded := Substitute(expanded, p, name, env);
      f := f - 1;
      m := Leftmost(expanded, 0);
    }
    ExpandLeftmost(expanded, env, f);
    if m.None? {
      return Some(Done(expanded));
    } else if |m.value.1| > MAX_VAR_NAME {
      return Some(Overflow);
    }
    return Some(Diverged);
  }

  // ---- the configuration and its defaults (jrtc_config.c:70-95) ----

  /** A buffer length of at least one byte. */
  type BufLen = n: nat | n >= 1 witness 1

  /** What the jbpf headers define and this model takes as given: default names and buffer sizes. */
  datatype Platform = Platform(defaultRunPath: string, defaultNamespace: string, defaultName: string,
                               runPathLen: BufLen, namespaceLen: BufLen, ipcNameLen: BufLen)

  /** The router's `char ipc_name[32]`. */
  const ROUTER_IPC_NAME_LEN: BufLen := 32

  const JBPF_IO_IPC_PRIMARY := 1
  const MEMORY_SIZE := 1024 * 1024 * 1024
  const TWO_TO_THE_64 := 0x1_0000_0000_0000_0000

  /** `strncpy(dst, src, len - 1)` into a zeroed `char dst[len]`: at most `len - 1` characters survive. */
  function Truncate(s: string, len: BufLen): (r: string)
    ensures |r| <= len - 1 && |r| <= |s| && r == s[..|r|]
    ensures |s| < len ==> r == s
    ensures |s| >= len ==> |r| == len - 1
  {
    if |s| < len then s else s[..len - 1]
  }

  datatype SchedConfig = SchedConfig(policy: int, priority: int, deadline: nat, runtime: nat, period: nat)

  /** The fields of `jrtc_config_t` the file can set, and the two constants `init_jrtc_config` writes. */
  datatype Config = Config(
    ioType: int, memorySize: nat,
    hasAffinityMask: bool, affinityMask: nat, hasSchedConfig: bool, sched: SchedConfig,
    routerIpcName: string, jbpfIpcName: string, jbpfPath: string, jbpfNamespace: string)

  /** `init_jrtc_config`. */
  function Defaults(plat: Platform): (c: Config)
    ensures c.affinityMask == 2 && !c.hasAffinityMask && !c.hasSchedConfig
    ensures c.sched == SchedConfig(0, 99, 30000000, 10000000, 30000000)
    ensures c.memorySize == 0x4000_0000
  {
    Config(JBPF_IO_IPC_PRIMARY, MEMORY_SIZE, false, 2, false,
           SchedConfig(0, 99, 30 * 1000 * 1000, 10 * 1000 * 1000, 30 * 1000 * 1000),
           Truncate(plat.defaultName, plat.ipcNameLen), Truncate(plat.defaultName, plat.ipcNameLen),
           Truncate(plat.defaultRunPath, plat.runPathLen), Truncate(plat.defaultNamespace, plat.namespaceLen))
  }

  // ---- atoi / atoll ----

  predicate IsSpace(c: char)
  {
    c == ' ' || c == '\t' || c == '\n' || c == '\U{B}' || c == '\U{C}' || c == '\r'
  }

  predicate IsDigit(c: char)
  {
    '0' <= c <= '9'
  }

  /** The value of the leading decimal digits of `s`, read left to right. */
  function DigitsValue(s: string, acc: nat): (r: nat)
    ensures r >= acc
    ensures s == [] || !IsDigit(s[0]) ==> r == acc
    decreases |s|
  {
    if s == [] || !IsDigit(s[0]) then acc
    else DigitsValue(s[1..], acc * 10 + (s[0] as int - '0' as int))
  }

  /** `atoi`/`atoll`: leading white space, an optional sign, then digits; 0 when there are none. */
  function Atoi(s: string): (r: int)
    ensures '-' !in s ==> r >= 0
    ensures (forall k :: 0 <= k < |s| ==> !IsDigit(s[k])) ==> r == 0
    decreases |s|
  {
    if s != [] && IsSpace(s[0]) then Atoi(s[1..])
    else if s != [] && s[0] == '-' then 0 - DigitsValue(s[1..], 0)
    else if s != [] && s[0] == '+' then DigitsValue(s[1..], 0)
    else DigitsValue(s, 0)
  }

  lemma AtoiExamples()
    ensures Atoi("3") == 3 && Atoi(" -7x") == -7 && Atoi("abc") == 0
  {
    assert Atoi(" -7x") == Atoi("-7x");
    assert DigitsValue("7x", 0) == DigitsValue("x", 7);
  }

  /** Reading on past a run of digits continues from the value of the run. */
  lemma {:induction false} DigitsValueAppend(p: string, t: string, acc: nat)
    requires forall k :: 0 <= k < |p| ==> IsDigit(p[k])
    ensures DigitsValue(p + t, acc) == DigitsValue(t, DigitsValue(p, acc))
    decreases |p|
  {
    if p == [] {
      assert p + t == t;
    } else {
      assert (p + t)[1..] == p[1..] + t;
      DigitsValueAppend(p[1..], t, acc * 10 + (p[0] as int - '0' as int));
    }
  }

  /** The digits of a number, as printed, read back as that number. */
  lemma {:induction false} DigitsValueDecimal(n: nat)
    ensures DigitsValue(DecimalText.Decimal(n), 0) == n
  {
    if n >= 10 {
      DigitsValueDecimal(n / 10);
      DigitsValueAppend(DecimalText.Decimal(n / 10), [DecimalText.Digit(n % 10)], 0);
    }
  }

  /**
   * `atoi` skips leading white space, takes an optional sign and reads the
   * decimal digits up to the first character that is not one.
   */
  lemma AtoiReadsDecimal(w: string, sign: string, n: nat, rest: string)
    requires forall k :: 0 <= k < |w| ==> IsSpace(w[k])
    requires sign == "" || sign == "-" || sign == "+"
    requires rest == [] || !IsDigit(rest[0])
    ensures Atoi(w + (sign + (DecimalText.Decimal(n) + rest))) == if sign == "-" then -(n as int) else n
  {
    DecimalReads(n, rest);
    var u := DecimalText.Decimal(n) + rest;
    if sign == "" {
      assert sign + u == u;
      AtoiDigits(u);
    } else {
      AtoiSigned(sign[0], u);
      assert sign == [sign[0]];
    }
    AtoiSkipsSpace(w, sign + u);
  }

  /** Leading white space does not change what `atoi` reads. */
  lemma {:induction false} AtoiSkipsSpace(w: string, t: string)
    requires forall k :: 0 <= k < |w| ==> IsSpace(w[k])
    ensures Atoi(w + t) == Atoi(t)
    decreases |w|
  {
    if w == [] {
      assert w + t == t;
    } else {
      assert (w + t)[0] == w[0];
      assert (w + t)[1..] == w[1..] + t;
      AtoiSkipsSpace(w[1..], t);
    }
  }

  /** A printed number followed by a non-digit starts with a digit and reads back as the number. */
  lemma DecimalReads(n: nat, rest: string)
    requires rest == [] || !IsDigit(rest[0])
    ensures var u := DecimalText.Decimal(n) + rest; u != [] && IsDigit(u[0]) && DigitsValue(u, 0) == n
  {
    DigitsValueDecimal(n);
    DigitsValueAppend(DecimalText.Decimal(n), rest, 0);
  }

  /** A sign is followed by the digits it applies to. */
  lemma AtoiSigned(c: char, u: string)
    requires c == '-' || c == '+'
    ensures Atoi([c] + u) == if c == '-' then -(DigitsValue(u, 0) as int) else DigitsValue(u, 0)
  {
    assert ([c] + u)[0] == c && ([c] + u)[1..] == u;
  }

  /** Text starting with a digit is read as its leading digits. */
  lemma AtoiDigits(u: string)
    requires u != [] && IsDigit(u[0])
    ensures Atoi(u) == DigitsValue(u, 0)
  {
  }




  /** An integer stored into an unsigned 64-bit field. */
  function ToU64(x: int): (r: nat)
    ensures r < TWO_TO_THE_64 && (0 <= x < TWO_TO_THE_64 ==> r == x)
  {
    x % TWO_TO_THE_64
  }

  // ---- set_config_values (jrtc_config.c:97-232) ----

  /** The parser events the loop distinguishes; `Other` stands for every other kind. */
  datatype Event = Scalar(value: string) | MappingStart | MappingEnd | StreamEnd | Other | ParseError

  /** The loop's state: the pending key ("" when none) and the four section flags. */
  datatype Parser = Parser(key: string, inRouter: bool, inThread: bool, inSched: bool, inJbpfIo: bool, config: Config)

  /** The longest key `char key[256]` keeps. */
  const KEY_LEN: BufLen := 256

  /** The state before the first event. */
  function Start(plat: Platform): Parser
  {
    Parser("", false, false, false, false, Defaults(plat))
  }

  /** The effect of a value for `key`: only keys of the section the flags select are recognised. */
  function ApplyValue(p: Parser, v: string, plat: Platform): (c: Config)
    ensures c.hasAffinityMask == p.config.hasAffinityMask
    ensures c.ioType == p.config.ioType && c.memorySize == p.config.memorySize
  {
    var c := p.config;
    if p.inThread && !p.inSched then
      if p.key == "affinity_mask" then c.(affinityMask := ToU64(Atoi(v)))
      else if p.key == "has_sched_config" then c.(hasSchedConfig := v == "true")
      else c
    else if p.inSched then
      if p.key == "sched_policy" then c.(sched := c.sched.(policy := Atoi(v)))
      else if p.key == "sched_priority" then c.(sched := c.sched.(priority := Atoi(v)))
      else if p.key == "sched_deadline" then c.(sched := c.sched.(deadline := ToU64(Atoi(v))))
      else if p.key == "sched_runtime" then c.(sched := c.sched.(runtime := ToU64(Atoi(v))))
      else if p.key == "sched_period" then c.(sched := c.sched.(period := ToU64(Atoi(v))))
      else c
    else if p.inJbpfIo then
      if p.key == "jbpf_namespace" then c.(jbpfNamespace := Truncate(v, plat.namespaceLen))
      else if p.key == "jbpf_path" then c.(jbpfPath := Truncate(v, plat.runPathLen))
      else c
    else if p.inRouter then
      if p.key == "ipc_name" then
        c.(routerIpcName := Truncate(v, ROUTER_IPC_NAME_LEN), jbpfIpcName := Truncate(v, plat.ipcNameLen))
      else c
    else c
  }

  /** One event other than a value scalar, stream end or parse error. */
  function Structure(p: Parser, e: Event): Parser
    requires !e.StreamEnd? && !e.ParseError? && !(e.Scalar? && p.key != "")
  {
    match e
    case Scalar(v) => p.(key := Truncate(v, KEY_LEN))
    case MappingStart =>
      var q := p.(key := "");
      if p.key == "jrtc_router_config" then q.(inRouter := true)
      else if p.key == "thread_config" && p.inRouter then q.(inThread := true)
      else if p.key == "sched_config" && p.inThread then q.(inSched := true)
      else if p.key == "jbpf_io_config" then q.(inJbpfIo := true)
      else q
    case MappingEnd =>
      if p.inSched then p.(inSched := false)
      else if p.inThread then p.(inThread := false)
      else if p.inRouter then p.(inRouter := false)
      else if p.inJbpfIo then p.(inJbpfIo := false)
      else p
    case Other => p
  }

  /** How `set_config_values` ends: a return code and the configuration, or no defined result. */
  datatype Outcome = Returned(rc: int, config: Config) | Undefined

  /**
   * The event loop from event `i`. A list that ends is read as ending with
   * `STREAM_END`. A value whose expansion overflows or does not finish
   * within `fuel` substitutions leaves the result undefined.
   */
  function Run(events: seq<Event>, i: nat, p: Parser, env: map<string, string>, plat: Platform, fuel: nat): (r: Outcome)
    requires i <= |events|
    ensures r.Returned? ==> r.rc == 0 || r.rc == -1
    ensures r.Returned? ==> r.config.ioType == p.config.ioType && r.config.memorySize == p.config.memorySize
    ensures r.Returned? ==> r.config.hasAffinityMask == p.config.hasAffinityMask
    decreases |events| - i
  {
    if i == |events| || events[i].StreamEnd? then Returned(0, p.config)
    else if events[i].ParseError? then Returned(-1, p.config)
    else if events[i].Scalar? && p.key != "" then
      match Expand(events[i].value, env, fuel)
      case Done(v) => Run(events, i + 1, p.(config := ApplyValue(p, v, plat), key := ""), env, plat, fuel)
      case _ => Undefined
    else Run(events, i + 1, Structure(p, events[i]), env, plat, fuel)
  }

  /**
   * `set_config_values`: the defaults; 0 for a NULL file name; -1 when the
   * file cannot be opened or the parser not set up; otherwise the event loop.
   */
  function Configure(filename: Option<string>, fileOpened: bool, parserReady: bool, events: seq<Event>,
                     env: map<string, string>, plat: Platform, fuel: nat): (r: Outcome)
    ensures r.Returned? ==> r.rc == 0 || r.rc == -1
    ensures r.Returned? ==> r.config.ioType == Defaults(plat).ioType && r.config.memorySize == Defaults(plat).memorySize
    ensures r.Undefined? ==> filename.Some? && fileOpened && parserReady
  {
    if filename.None? then Returned(0, Defaults(plat))
    else if !fileOpened || !parserReady then Returned(-1, Defaults(plat))
    else Run(events, 0, Start(plat), env, plat, fuel)
  }

  /** `set_config_values`. */
  method SetConfigValues(filename: Option<string>, fileOpened: bool, parserReady: bool, events: seq<Event>,
                         env: map<string, string>, plat: Platform, fuel: nat) returns (o: Outcome)
    ensures o == Configure(filename, fileOpened, parserReady, events, env, plat, fuel)
  {
    var config := Defaults(plat);
    if filename.None? {
      return Returned(0, config);
    }
    if !fileOpened || !parserReady {
      return Returned(-1, config);
    }
    var p := Start(plat);
    var i := 0;
    while i < |events|
      invariant 0 <= i <= |events|
      invariant Run(events, 0, Start(plat), env, plat, fuel) == Run(events, i, p, env, plat, fuel)
    {
      var event := events[i];
      if event.ParseError? {
        return Returned(-1, p.config);
      }
      if event.StreamEnd? {
        break;
      }
      if event.Scalar? && p.key != "" {
        var expanded := ExpandEnvVars(Some(event.value), env, fuel);
        if !expanded.value.Done? {
          return Undefined;
        }
        p := p.(config := ApplyValue(p, expanded.value.text, plat), key := "");
      } else {
        p := Structure(p, event);
      }
      i := i + 1;
    }
    return Returned(0, p.config);
  }

  // ---- properties of the event loop ----

  /** Without a file name the result is 0 and the defaults. */
  lemma NoFileGivesDefaults(fileOpened: bool, parserReady: bool, events: seq<Event>, env: map<string, string>, plat: Platform, fuel: nat)
    ensures Configure(None, fileOpened, parserReady, events, env, plat, fuel) == Returned(0, Defaults(plat))
  {
  }

  /** The state the loop reaches after the events before `k`, none of which ends it. */
  function StateAfter(events: seq<Event>, k: nat, env: map<string, string>, plat: Platform, fuel: nat): Option<Parser>
    requires k <= |events|
  {
    if k == 0 then Some(Start(plat))
    else match StateAfter(events, k - 1, env, plat, fuel)
      case None => None
      case Some(p) =>
        var e := events[k - 1];
        if e.StreamEnd? || e.ParseError? then None
        else if e.Scalar? && p.key != "" then
          match Expand(e.value, env, fuel)
          case Done(v) => Some(p.(config := ApplyValue(p, v, plat), key := ""))
          case _ => None
        else Some(Structure(p, e))
  }

  /** A parse error returns -1 and keeps every field set before it. */
  lemma {:induction false} ParseErrorKeepsEarlierFields(events: seq<Event>, k: nat, env: map<string, string>, plat: Platform, fuel: nat)
    requires k < |events| && events[k].ParseError? && StateAfter(events, k, env, plat, fuel).Some?
    ensures Run(events, 0, Start(plat), env, plat, fuel) == Returned(-1, StateAfter(events, k, env, plat, fuel).value.config)
  {
    RunFrom(events, k, env, plat, fuel);
  }

  /** Running from the start is running from the state after the first `k` events. */
  lemma {:induction false} RunFrom(events: seq<Event>, k: nat, env: map<string, string>, plat: Platform, fuel: nat)
    requires k <= |events| && StateAfter(events, k, env, plat, fuel).Some?
    ensures Run(events, 0, Start(plat), env, plat, fuel) == Run(events, k, StateAfter(events, k, env, plat, fuel).value, env, plat, fuel)
  {
    if k > 0 {
      RunFrom(events, k - 1, env, plat, fuel);
      var p := StateAfter(events, k - 1, env, plat, fuel).value;
      var e := events[k - 1];
      var q := StateAfter(events, k, env, plat, fuel).value;
      if e.Scalar? && p.key != "" {
        var v := Expand(e.value, env, fuel).text;
        assert q == p.(config := ApplyValue(p, v, plat), key := "");
      } else {
        assert q == Structure(p, e);
      }
      assert Run(events, k - 1, p, env, plat, fuel) == Run(events, k, q, env, plat, fuel);
    }
  }

  /** Parsing never sets `has_affinity_mask` and leaves the memory size and I/O type alone. */
  ghost predicate Invariant(c: Config)
  {
    !c.hasAffinityMask && c.ioType == JBPF_IO_IPC_PRIMARY && c.memorySize == MEMORY_SIZE
  }

  /** An `ipc_name` value in the router section goes to both the router's and the jbpf I/O name. */
  lemma IpcNameWritesBoth(p: Parser, v: string, plat: Platform)
    requires p.inRouter && !p.inThread && !p.inSched && !p.inJbpfIo && p.key == "ipc_name"
    ensures ApplyValue(p, v, plat) ==
      p.config.(routerIpcName := Truncate(v, ROUTER_IPC_NAME_LEN), jbpfIpcName := Truncate(v, plat.ipcNameLen))
  {
  }

  lemma {:induction false} RunKeepsInvariant(events: seq<Event>, i: nat, p: Parser, env: map<string, string>, plat: Platform, fuel: nat)
    requires i <= |events| && Invariant(p.config)
    ensures Run(events, i, p, env, plat, fuel).Returned? ==> Invariant(Run(events, i, p, env, plat, fuel).config)
    decreases |events| - i
  {
    if i < |events| && !events[i].StreamEnd? && !events[i].ParseError? {
      if events[i].Scalar? && p.key != "" {
        match Expand(events[i].value, env, fuel)
        case Done(v) =>
          RunKeepsInvariant(events, i + 1, p.(config := ApplyValue(p, v, plat), key := ""), env, plat, fuel);
        case _ =>
      } else {
        RunKeepsInvariant(events, i + 1, Structure(p, events[i]), env, plat, fuel);
      }
    }
  }

  /** Every defined outcome keeps the invariant. */
  lemma ConfigureKeepsInvariant(filename: Option<string>, fileOpened: bool, parserReady: bool, events: seq<Event>,
                                env: map<string, string>, plat: Platform, fuel: nat)
    ensures var o := Configure(filename, fileOpened, parserReady, events, env, plat, fuel);
      o.Returned? ==> Invariant(o.config) && (o.rc == 0 || o.rc == -1)
  {
    RunReturnCode(events, 0, Start(plat), env, plat, fuel);
    RunKeepsInvariant(events, 0, Start(plat), env, plat, fuel);
  }

  lemma {:induction false} RunReturnCode(events: seq<Event>, i: nat, p: Parser, env: map<string, string>, plat: Platform, fuel: nat)
    requires i <= |events|
    ensures Run(events, i, p, env, plat, fuel).Returned? ==> Run(events, i, p, env, plat, fuel).rc in {0, -1}
    decreases |events| - i
  {
    if i < |events| && !events[i].StreamEnd? && !events[i].ParseError? {
      if events[i].Scalar? && p.key != "" {
        if Expand(events[i].value, env, fuel).Done? {
          RunReturnCode(events, i + 1, p.(config := ApplyValue(p, Expand(events[i].value, env, fuel).text, plat), key := ""), env, plat, fuel);
        }
      } else {
        RunReturnCode(events, i + 1, Structure(p, events[i]), env, plat, fuel);
      }
    }
  }

  /** `has_sched_config` is set exactly when the value is the text "true". */
  lemma HasSchedConfigIsTrueText(p: Parser, v: string, plat: Platform)
    requires p.inThread && !p.inSched && p.key == "has_sched_config"
    ensures ApplyValue(p, v, plat) == p.config.(hasSchedConfig := v == "true")
  {
  }

  /** A value under a key its section does not know changes nothing. */
  lemma UnknownKeyIgnored(p: Parser, v: string, plat: Platform)
    requires p.key !in {"affinity_mask", "has_sched_config", "sched_policy", "sched_priority", "sched_deadline",
                        "sched_runtime", "sched_period", "jbpf_namespace", "jbpf_path", "ipc_name"}
    ensures ApplyValue(p, v, plat) == p.config
  {
  }

  /** Outside every section no value has an effect. */
  lemma NoSectionNoEffect(p: Parser, v: string, plat: Platform)
    requires !p.inRouter && !p.inThread && !p.inSched && !p.inJbpfIo
    ensures ApplyValue(p, v, plat) == p.config
  {
  }

  /** `jrtc_${ID}` with `ID=1234` expands to `jrtc_1234`. */
  lemma NamespaceExpansion()
    ensures Expand("jrtc_${ID}", map["ID" := "1234"], 1) == Done("jrtc_1234")
  {
    var env := map["ID" := "1234"];
    var s := "jrtc_${ID}";
    assert MatchAt(s, 5) == Some("ID") by {
      assert CloseBrace(s, 9) == Some(9);
      assert CloseBrace(s, 8) == Some(9);
      assert CloseBrace(s, 7) == Some(9);
      assert s[7..9] == "ID";
    }
    assert Leftmost(s, 0) == Some((5, "ID")) by {
      assert MatchAt(s, 0).None? && MatchAt(s, 1).None? && MatchAt(s, 2).None?;
      assert MatchAt(s, 3).None? && MatchAt(s, 4).None?;
    }
    assert Substitute(s, 5, "ID", env) == "jrtc_1234";
    var t := "jrtc_1234";
    assert Leftmost(t, 0).None? by {
      assert forall j | 0 <= j <= |t| :: t[j..] == [] || t[j] != '$';
    }
  }
}
