/**
 * The controller's REST shim (src/rest_api_lib/src/lib.rs): `$NAME` and
 * `${NAME}` expansion of app parameters, and the handlers for loading,
 * unloading and listing apps over the list of loaded-app states. The load
 * and unload callbacks into the controller are function parameters; the
 * environment is a map and the clock a parameter.
 */
module RestApi {
  import opened Wrappers
  import JrtcConfig
  import DecimalText

  // ---- expand_env_vars (lib.rs:156-193) ----

  /** The index of the first '$' at or after `i`, if any. */
  function FirstDollar(s: string, i: nat): (r: Option<nat>)
    requires i <= |s|
    ensures r.Some? ==> i <= r.value < |s| && s[r.value] == '$'
    decreases |s| - i
  {
    if i == |s| then None
    else if s[i] == '$' then Some(i)
    else FirstDollar(s, i + 1)
  }

  /** The index of the first character at or after `i` that is not alphanumeric, if any. */
  function FirstNonAlphanumeric(s: string, i: nat): (r: Option<nat>)
    requires i <= |s|
    ensures r.Some? ==> i <= r.value < |s| && !IsAlphanumeric(s[r.value])
    ensures forall k :: i <= k < (if r.Some? then r.value else |s|) ==> IsAlphanumeric(s[k])
    decreases |s| - i
  {
    if i == |s| then None
    else if !IsAlphanumeric(s[i]) then Some(i)
    else FirstNonAlphanumeric(s, i + 1)
  }

  /** `char::is_alphanumeric` on ASCII. */
  predicate IsAlphanumeric(c: char)
  {
    'a' <= c <= 'z' || 'A' <= c <= 'Z' || '0' <= c <= '9'
  }

  predicate IsBrace(c: char)
  {
    c == '{' || c == '}'
  }

  /** `trim_matches` on braces: every leading and trailing '{' or '}' removed. */
  function TrimBraces(s: string): (r: string)
    ensures |r| <= |s|
    ensures r != [] ==> !IsBrace(r[0]) && !IsBrace(r[|r| - 1])
    ensures r == [] <==> forall k :: 0 <= k < |s| ==> IsBrace(s[k])
    decreases |s|
  {
    if s == [] then s
    else if IsBrace(s[0]) then
      assert forall k :: 1 <= k < |s| ==> s[k] == s[1..][k - 1];
      TrimBraces(s[1..])
    else if IsBrace(s[|s| - 1]) then
      assert forall k :: 0 <= k < |s| - 1 ==> s[k] == s[..|s| - 1][k];
      TrimBraces(s[..|s| - 1])
    else s
  }

  /** What is trimmed are braces only: the result is a slice of `s` with nothing but braces on either side. */
  lemma {:induction false} TrimBracesSlice(s: string)
    ensures exists a, b ::
              && 0 <= a <= b <= |s| && TrimBraces(s) == s[a..b]
              && (forall k :: 0 <= k < a ==> IsBrace(s[k]))
              && (forall k :: b <= k < |s| ==> IsBrace(s[k]))
    decreases |s|
  {
    if s == [] {
      assert TrimBraces(s) == s[0..0];
    } else if IsBrace(s[0]) {
      TrimBracesSlice(s[1..]);
      var a, b :| && 0 <= a <= b <= |s| - 1 && TrimBraces(s[1..]) == s[1..][a..b]
                  && (forall k :: 0 <= k < a ==> IsBrace(s[1..][k]))
                  && (forall k :: b <= k < |s| - 1 ==> IsBrace(s[1..][k]));
      TrimFrontShift(s, a, b);
    } else if IsBrace(s[|s| - 1]) {
      var t := s[..|s| - 1];
      TrimBracesSlice(t);
      var a, b :| && 0 <= a <= b <= |t| && TrimBraces(t) == t[a..b]
                  && (forall k :: 0 <= k < a ==> IsBrace(t[k]))
                  && (forall k :: b <= k < |t| ==> IsBrace(t[k]));
      TrimBackShift(s, t, a, b);
    } else {
      assert TrimBraces(s) == s[0..|s|];
    }
  }

  /** A slice of `s[1..]` with braces around it, behind a leading brace, is a slice of `s` with braces around it. */
  lemma TrimFrontShift(s: string, a: nat, b: nat)
    requires s != [] && IsBrace(s[0]) && a <= b <= |s| - 1
    requires forall k :: 0 <= k < a ==> IsBrace(s[1..][k])
    requires forall k :: b <= k < |s| - 1 ==> IsBrace(s[1..][k])
    ensures s[1..][a..b] == s[a + 1..b + 1]
    ensures forall k :: 0 <= k < a + 1 ==> IsBrace(s[k])
    ensures forall k :: b + 1 <= k < |s| ==> IsBrace(s[k])
  {
    forall k | 0 < k < |s| ensures s[k] == s[1..][k - 1] {}
  }

  /** The same for a trailing brace. */
  lemma TrimBackShift(s: string, t: string, a: nat, b: nat)
    requires s != [] && IsBrace(s[|s| - 1]) && t == s[..|s| - 1] && a <= b <= |t|
    requires forall k :: 0 <= k < a ==> IsBrace(t[k])
    requires forall k :: b <= k < |t| ==> IsBrace(t[k])
    ensures t[a..b] == s[a..b]
    ensures forall k :: 0 <= k < a ==> IsBrace(s[k])
    ensures forall k :: b <= k < |s| ==> IsBrace(s[k])
  {
    forall k | 0 <= k < |t| ensures s[k] == t[k] {}
  }

  /** `std::env::var`: the value, or nothing when it is unset; an empty name is never set. */
  function EnvVar(env: map<string, string>, name: string): string
  {
    if name == "" then "" else JrtcConfig.Lookup(env, name)
  }

  /** How the Rust loop ends: with the expanded text, or never (its state repeats). */
  datatype RustExpansion = Finished(text: string) | Loops

  function Prepend(s: string, r: RustExpansion): (r': RustExpansion)
    ensures r.Finished? <==> r'.Finished?
    ensures r.Finished? ==> r'.text == s + r.text
  {
    match r
    case Finished(t) => Finished(s + t)
    case Loops => Loops
  }

  /** One pass of the loop from cursor `start`: no '$' left, a pass that leaves the cursor in place, or what it emits and where it moves the cursor. */
  datatype Pass = NoDollar | Stuck | Advance(emitted: string, next: nat)

  /**
   * One pass as written. A simple `$NAME` moves the cursor to the last
   * character of the name rather than past it; a `$` followed by a
   * character that is neither '{' nor alphanumeric leaves the cursor where
   * it was, having emitted nothing, so the loop repeats the same state.
   */
  function PassAt(input: string, env: map<string, string>, start: nat): (r: Pass)
    requires start <= |input|
    ensures r.Advance? ==> start < r.next <= |input|
  {
    match FirstDollar(input, start)
    case None => NoDollar
    case Some(d) =>
      if d + 1 < |input| && input[d + 1] == '{' then BracedPass(input, env, start, d)
      else SimplePass(input, env, start, d)
  }

  /** A pass at a `$` followed by '{': the braced name and the cursor past '}', or a literal '$'. */
  function BracedPass(input: string, env: map<string, string>, start: nat, d: nat): (r: Pass)
    requires start <= d && d + 2 <= |input|
    ensures r.Advance? && d < r.next <= |input|
  {
    match JrtcConfig.CloseBrace(input, d + 2)
    case Some(e) => Advance(input[start..d] + EnvVar(env, TrimBraces(input[d + 2..e])), e + 1)
    case None => Advance(input[start..d] + "$", d + 1)
  }

  /** A pass at any other `$`: the cursor moves to one before the end of the name. */
  function SimplePass(input: string, env: map<string, string>, start: nat, d: nat): (r: Pass)
    requires start <= d < |input|
    ensures r.Advance? ==> start < r.next <= |input|
    ensures !r.Advance? ==> r.Stuck?
  {
    match FirstNonAlphanumeric(input, d + 1)
    case Some(e) =>
      if e - 1 == start then Stuck
      else Advance(input[start..d] + EnvVar(env, input[d + 1..e]), e - 1)
    case None => Advance(input[start..d] + "$", d + 1)
  }

  /** The loop as written, from cursor `start`. */
  function ExpandAsWritten(input: string, env: map<string, string>, start: nat): (r: RustExpansion)
    requires start <= |input|
    ensures r.Loops? ==> exists i :: start <= i < |input| && input[i] == '$'
    decreases |input| - start
  {
    match PassAt(input, env, start)
    case NoDollar => Finished(input[start..])
    case Stuck => Loops
    case Advance(emitted, next) => Prepend(emitted, ExpandAsWritten(input, env, next))
  }

  /**
   * One pass of the body of `expand_env_vars`' loop: copy up to the next
   * '$', then the value of the name that follows it, and move the cursor.
   */
  method NextPass(input: string, env: map<string, string>, startIndex: nat) returns (p: Pass)
    requires startIndex <= |input|
    ensures p == PassAt(input, env, startIndex)
  {
    var found := FirstDollar(input, startIndex);
    if found.None? {
      assert PassAt(input, env, startIndex) == NoDollar;
      return NoDollar;
    }
    var dollarPos := found.value;
    var pre := input[startIndex..dollarPos];
    if dollarPos + 1 < |input| && input[dollarPos + 1] == '{' {
      var endPos := JrtcConfig.CloseBrace(input, dollarPos + 2);
      if endPos.Some? {
        var varName := input[dollarPos + 2..endPos.value];
        ClosedPass(input, env, startIndex, dollarPos, endPos.value);
        return Advance(pre + EnvVar(env, TrimBraces(varName)), endPos.value + 1);
      }
      UnclosedPass(input, env, startIndex, dollarPos);
      return Advance(pre + "$", dollarPos + 1);
    }
    SimplePassAt(input, env, startIndex, dollarPos);
    var endPos := FirstNonAlphanumeric(input, dollarPos + 1);
    if endPos.Some? {
      if endPos.value - 1 == startIndex {
        assert SimplePass(input, env, startIndex, dollarPos) == Stuck;
        return Stuck;
      }
      var varName := input[dollarPos + 1..endPos.value];
      assert SimplePass(input, env, startIndex, dollarPos) == Advance(pre + EnvVar(env, varName), endPos.value - 1);
      return Advance(pre + EnvVar(env, varName), endPos.value - 1);
    }
    assert SimplePass(input, env, startIndex, dollarPos) == Advance(pre + "$", dollarPos + 1);
    return Advance(pre + "$", dollarPos + 1);
  }

  /** A pass whose first '$', at `d`, does not open a `${`. */
  lemma SimplePassAt(input: string, env: map<string, string>, start: nat, d: nat)
    requires start <= |input| && FirstDollar(input, start) == Some(d)
    requires !(d + 1 < |input| && input[d + 1] == '{')
    ensures PassAt(input, env, start) == SimplePass(input, env, start, d)
  {
  }

  /**
   * `expand_env_vars`, as written. A pass that leaves the cursor in place
   * has emitted nothing and would be repeated identically, so it is
   * reported as `Loops`.
   */
  method ExpandEnvVars(input: string, env: map<string, string>) returns (r: RustExpansion)
    ensures r == ExpandAsWritten(input, env, 0)
  {
    var result := "";
    var startIndex := 0;
    while true
      invariant startIndex <= |input|
      invariant Prepend(result, ExpandAsWritten(input, env, startIndex)) == ExpandAsWritten(input, env, 0)
      decreases |input| - startIndex
    {
      var pass := NextPass(input, env, startIndex);
      if pass.NoDollar? {
        break;
      } else if pass.Stuck? {
        return Loops;
      }
      PrependTwice(result, pass.emitted, ExpandAsWritten(input, env, pass.next));
      result := result + pass.emitted;
      startIndex := pass.next;
    }
    PrependTwice(result, input[startIndex..], Finished(""));
    assert input[startIndex..] + "" == input[startIndex..];
    return Finished(result + input[startIndex..]);
  }

  lemma PrependTwice(a: string, b: string, r: RustExpansion)
    ensures Prepend(a, Prepend(b, r)) == Prepend(a + b, r)
  {
    if r.Finished? {
      assert a + (b + r.text) == (a + b) + r.text;
    }
  }

  /** What the front of a text expands to, and how many characters that consumes. */
  datatype Token = Token(emitted: string, length: nat)

  /**
   * The evidently intended reading of the front of `s`: `${NAME}` and a
   * non-empty `$NAME` give the value (or nothing), any other character,
   * including a `$` that starts neither, stands for itself.
   */
  function Head(s: string, env: map<string, string>): (t: Token)
    requires s != []
    ensures 1 <= t.length <= |s|
    ensures s[0] != '$' ==> t == Token([s[0]], 1)
  {
    if s[0] != '$' then Token([s[0]], 1)
    else if |s| > 1 && s[1] == '{' then
      match JrtcConfig.CloseBrace(s, 2)
      case Some(e) => Token(EnvVar(env, TrimBraces(s[2..e])), e + 1)
      case None => Token("$", 1)
    else
      match FirstNonAlphanumeric(s, 1)
      case Some(e) => if e == 1 then Token("$", 1) else Token(EnvVar(env, s[1..e]), e)
      case None => Token("$", 1)
  }

  /** The evidently intended expansion: the front's token, then the rest. */
  function Expand(s: string, env: map<string, string>): (r: string)
    ensures env == map[] ==> |r| <= |s|
    decreases |s|
  {
    if s == [] then "" else Head(s, env).emitted + Expand(s[Head(s, env).length..], env)
  }

  /** Text without '$' is returned unchanged. */
  lemma {:induction false} ExpandWithoutDollar(s: string, env: map<string, string>)
    requires '$' !in s
    ensures Expand(s, env) == s
    decreases |s|
  {
    if s != [] {
      assert s[0] in s;
      assert forall c :: c in s[1..] ==> c in s;
      ExpandWithoutDollar(s[1..], env);
    }
  }

  /** A prefix without '$' is copied, and expansion carries on after it. */
  lemma {:induction false} ExpandCopiesPlainPrefix(s: string, k: nat, env: map<string, string>)
    requires k <= |s| && '$' !in s[..k]
    ensures Expand(s, env) == s[..k] + Expand(s[k..], env)
    decreases k
  {
    if k > 0 {
      assert s[0] == s[..k][0];
      assert '$' !in s[1..][..k - 1] by {
        assert s[1..][..k - 1] == s[..k][1..];
      }
      ExpandCopiesPlainPrefix(s[1..], k - 1, env);
      assert s[1..][k - 1..] == s[k..];
      assert [s[0]] + s[1..][..k - 1] == s[..k];
    }
  }

  /** Every '$' in `s[i..]` opens a braced name: it is followed by '{'. */
  ghost predicate OnlyBraced(s: string, i: nat)
    requires i <= |s|
    decreases |s| - i
  {
    i == |s| || ((s[i] == '$' ==> i + 1 < |s| && s[i + 1] == '{') && OnlyBraced(s, i + 1))
  }

  /** What `OnlyBraced` from `i` says about a later position `k`. */
  lemma {:induction false} OnlyBracedFrom(s: string, i: nat, k: nat)
    requires i <= k <= |s| && OnlyBraced(s, i)
    ensures OnlyBraced(s, k)
    ensures k < |s| && s[k] == '$' ==> k + 1 < |s| && s[k + 1] == '{'
    decreases k - i
  {
    if i < k {
      OnlyBracedFrom(s, i + 1, k);
    }
  }

  /** One pass of the loop as written, followed by the rest of the loop that finishes with `t`. */
  lemma ExpandAsWrittenStep(input: string, env: map<string, string>, start: nat, emitted: string, next: nat, t: string)
    requires start <= |input| && PassAt(input, env, start) == Advance(emitted, next)
    requires ExpandAsWritten(input, env, next) == Finished(t)
    ensures ExpandAsWritten(input, env, start) == Finished(emitted + t)
  {
  }

  lemma Associative(a: string, b: string, c: string)
    ensures (a + b) + c == a + (b + c)
  {
  }

  /** The first '}' of a suffix is the first '}' of the whole at the same place. */
  lemma {:induction false} CloseBraceShift(s: string, d: nat, i: nat)
    requires d + i <= |s|
    ensures JrtcConfig.CloseBrace(s[d..], i) == (match JrtcConfig.CloseBrace(s, d + i) case Some(e) => Some(e - d) case None => None)
    decreases |s| - d - i
  {
    if d + i < |s| && s[d + i] != '}' {
      CloseBraceShift(s, d, i + 1);
    }
  }

  /** Between `i` and the first '$' found from there, there is no '$'. */
  lemma {:induction false} FirstDollarSkips(s: string, i: nat)
    requires i <= |s|
    ensures var k := match FirstDollar(s, i) case Some(d) => d case None => |s|;
      '$' !in s[i..k]
    decreases |s| - i
  {
    if i < |s| && s[i] != '$' {
      FirstDollarSkips(s, i + 1);
      var k := match FirstDollar(s, i) case Some(d) => d case None => |s|;
      assert s[i..k] == [s[i]] + s[i + 1..k];
    }
  }

  /** Expansion of a suffix from a plain stretch `s[i..k]` on copies the stretch. */
  lemma ExpandFromPlain(s: string, i: nat, k: nat, env: map<string, string>)
    requires i <= k <= |s| && '$' !in s[i..k]
    ensures Expand(s[i..], env) == s[i..k] + Expand(s[k..], env)
  {
    assert s[i..][..k - i] == s[i..k];
    assert s[i..][k - i..] == s[k..];
    ExpandCopiesPlainPrefix(s[i..], k - i, env);
  }

  /** Expansion at a closed `${NAME}`, in terms of the whole text. */
  lemma ExpandBracedAt(s: string, d: nat, e: nat, env: map<string, string>)
    requires d + 1 < |s| && s[d] == '$' && s[d + 1] == '{' && JrtcConfig.CloseBrace(s, d + 2) == Some(e)
    ensures Expand(s[d..], env) == EnvVar(env, TrimBraces(s[d + 2..e])) + Expand(s[e + 1..], env)
  {
    var t := s[d..];
    CloseBraceShift(s, d, 2);
    assert t[2..e - d] == s[d + 2..e];
    assert Head(t, env) == Token(EnvVar(env, TrimBraces(s[d + 2..e])), e - d + 1);
    assert t[e - d + 1..] == s[e + 1..];
  }

  /** Expansion at a `${` that is never closed: the '$' stands for itself. */
  lemma ExpandUnclosedAt(s: string, d: nat, env: map<string, string>)
    requires d + 1 < |s| && s[d] == '$' && s[d + 1] == '{' && JrtcConfig.CloseBrace(s, d + 2).None?
    ensures Expand(s[d..], env) == "$" + Expand(s[d + 1..], env)
  {
    var t := s[d..];
    CloseBraceShift(s, d, 2);
    assert Head(t, env) == Token("$", 1);
    assert t[1..] == s[d + 1..];
  }

  /** The first non-alphanumeric character of a suffix is that of the whole, at the same place. */
  lemma {:induction false} FirstNonAlphanumericShift(s: string, d: nat, i: nat)
    requires d + i <= |s|
    ensures FirstNonAlphanumeric(s[d..], i) ==
      (match FirstNonAlphanumeric(s, d + i) case Some(e) => Some(e - d) case None => None)
    decreases |s| - d - i
  {
    if d + i < |s| && IsAlphanumeric(s[d + i]) {
      FirstNonAlphanumericShift(s, d, i + 1);
    }
  }

  /**
   * Expansion at a non-empty `$NAME` ended by the character at `e`: the
   * value, then the expansion from that character on, which is kept.
   */
  lemma ExpandSimpleAt(s: string, d: nat, e: nat, env: map<string, string>)
    requires d + 1 < |s| && s[d] == '$' && s[d + 1] != '{' && FirstNonAlphanumeric(s, d + 1) == Some(e) && e > d + 1
    ensures Expand(s[d..], env) == EnvVar(env, s[d + 1..e]) + Expand(s[e..], env)
  {
    var t := s[d..];
    FirstNonAlphanumericShift(s, d, 1);
    assert t[1..e - d] == s[d + 1..e];
    assert Head(t, env) == Token(EnvVar(env, s[d + 1..e]), e - d);
    assert t[e - d..] == s[e..];
  }

  /** The intended expansion copies the text up to the first `$`. */
  lemma ExpandToDollar(s: string, i: nat, env: map<string, string>)
    requires i <= |s|
    ensures var k := match FirstDollar(s, i) case Some(d) => d case None => |s|;
      Expand(s[i..], env) == s[i..k] + Expand(s[k..], env)
  {
    FirstDollarSkips(s, i);
    var k := match FirstDollar(s, i) case Some(d) => d case None => |s|;
    ExpandFromPlain(s, i, k, env);
  }

  /**
   * A pass that copies the text before the `$` at `d` and emits `value`
   * agrees with the intended expansion when the rest of the loop does.
   */
  lemma PassAgrees(input: string, env: map<string, string>, start: nat, d: nat, value: string, next: nat)
    requires start <= d < next <= |input|
    requires Expand(input[start..], env) == input[start..d] + Expand(input[d..], env)
    requires PassAt(input, env, start) == Advance(input[start..d] + value, next)
    requires Expand(input[d..], env) == value + Expand(input[next..], env)
    requires ExpandAsWritten(input, env, next) == Finished(Expand(input[next..], env))
    ensures ExpandAsWritten(input, env, start) == Finished(Expand(input[start..], env))
  {
    ExpandAsWrittenStep(input, env, start, input[start..d] + value, next, Expand(input[next..], env));
    Associative(input[start..d], value, Expand(input[next..], env));
  }

  /** Without a `$` from `start` on, both expansions copy the rest. */
  lemma NoDollarAgrees(input: string, env: map<string, string>, start: nat)
    requires start <= |input| && FirstDollar(input, start).None?
    ensures ExpandAsWritten(input, env, start) == Finished(Expand(input[start..], env))
  {
    ExpandToDollar(input, start, env);
    assert input[|input|..] == [];
    assert input[start..|input|] + "" == input[start..];
  }

  /** The pass at `start` when the first `$` opens a closed `${NAME}`. */
  lemma ClosedPass(input: string, env: map<string, string>, start: nat, d: nat, e: nat)
    requires start <= |input| && FirstDollar(input, start) == Some(d)
    requires d + 1 < |input| && input[d + 1] == '{' && JrtcConfig.CloseBrace(input, d + 2) == Some(e)
    ensures PassAt(input, env, start) == Advance(input[start..d] + EnvVar(env, TrimBraces(input[d + 2..e])), e + 1)
  {
  }

  /** The pass at `start` when the first `$` opens a `${` that is never closed. */
  lemma UnclosedPass(input: string, env: map<string, string>, start: nat, d: nat)
    requires start <= |input| && FirstDollar(input, start) == Some(d)
    requires d + 1 < |input| && input[d + 1] == '{' && JrtcConfig.CloseBrace(input, d + 2).None?
    ensures PassAt(input, env, start) == Advance(input[start..d] + "$", d + 1)
  {
  }

  /** The pass over a closed `${NAME}` at `d`, given that the rest of the loop agrees. */
  lemma ClosedAgrees(input: string, env: map<string, string>, start: nat, d: nat, e: nat)
    requires start <= |input| && FirstDollar(input, start) == Some(d)
    requires d + 1 < |input| && input[d + 1] == '{' && JrtcConfig.CloseBrace(input, d + 2) == Some(e)
    requires ExpandAsWritten(input, env, e + 1) == Finished(Expand(input[e + 1..], env))
    ensures ExpandAsWritten(input, env, start) == Finished(Expand(input[start..], env))
  {
    ExpandToDollar(input, start, env);
    ExpandBracedAt(input, d, e, env);
    ClosedPass(input, env, start, d, e);
    PassAgrees(input, env, start, d, EnvVar(env, TrimBraces(input[d + 2..e])), e + 1);
  }

  /** The pass over an unclosed `${` at `d`, given that the rest of the loop agrees. */
  lemma UnclosedAgrees(input: string, env: map<string, string>, start: nat, d: nat)
    requires start <= |input| && FirstDollar(input, start) == Some(d)
    requires d + 1 < |input| && input[d + 1] == '{' && JrtcConfig.CloseBrace(input, d + 2).None?
    requires ExpandAsWritten(input, env, d + 1) == Finished(Expand(input[d + 1..], env))
    ensures ExpandAsWritten(input, env, start) == Finished(Expand(input[start..], env))
  {
    ExpandToDollar(input, start, env);
    ExpandUnclosedAt(input, d, env);
    UnclosedPass(input, env, start, d);
    PassAgrees(input, env, start, d, "$", d + 1);
  }

  /**
   * With only braced names, the loop as written terminates and agrees with
   * the intended expansion.
   */
  lemma {:induction false} BracedAgree(input: string, env: map<string, string>, start: nat)
    requires start <= |input| && OnlyBraced(input, start)
    ensures ExpandAsWritten(input, env, start) == Finished(Expand(input[start..], env))
    decreases |input| - start
  {
    match FirstDollar(input, start)
    case None =>
      NoDollarAgrees(input, env, start);
    case Some(d) =>
      OnlyBracedFrom(input, start, d);
      match JrtcConfig.CloseBrace(input, d + 2)
      case Some(e) =>
        OnlyBracedFrom(input, start, e + 1);
        BracedAgree(input, env, e + 1);
        ClosedAgrees(input, env, start, d, e);
      case None =>
        OnlyBracedFrom(input, start, d + 1);
        BracedAgree(input, env, d + 1);
        UnclosedAgrees(input, env, start, d);
  }

  /**
   * The cursor stops one short after a simple `$NAME`: `$AB/` with `AB`
   * set to `v` gives `vB/` where `v/` is intended.
   */
  lemma SimpleNameReemitsLastCharacter()
    ensures ExpandAsWritten("$AB/", map["AB" := "v"], 0) == Finished("vB/")
    ensures Expand("$AB/", map["AB" := "v"]) == "v/"
  {
    var env := map["AB" := "v"];
    var s := "$AB/";
    assert FirstDollar(s, 0) == Some(0);
    assert FirstNonAlphanumeric(s, 1) == Some(3) by {
      assert FirstNonAlphanumeric(s, 3) == Some(3);
    }
    assert s[1..3] == "AB";
    assert ExpandAsWritten(s, env, 0) == Prepend("v", ExpandAsWritten(s, env, 2));
    assert FirstDollar(s, 2).None? by {
      assert FirstDollar(s, 4).None?;
    }
    assert s[2..] == "B/";
    assert s[3..] == "/";
    ExpandWithoutDollar("/", env);
  }

  /** `$$` never finishes as written; the intended expansion keeps both characters. */
  lemma DoubleDollarLoops(env: map<string, string>)
    ensures ExpandAsWritten("$$", env, 0) == Loops
    ensures Expand("$$", env) == "$$"
  {
    assert FirstDollar("$$", 0) == Some(0);
    assert FirstNonAlphanumeric("$$", 1) == Some(1);
    assert "$$"[1..] == "$";
    assert FirstNonAlphanumeric("$", 1).None?;
    assert "$"[1..] == "";
  }

  /** A trailing `$NAME` with nothing after the name is kept as it is. */
  lemma TrailingSimpleNameKept(env: map<string, string>)
    ensures ExpandAsWritten("x$AB", env, 0) == Finished("x$AB")
    ensures Expand("x$AB", env) == "x$AB"
  {
    var s := "x$AB";
    assert FirstDollar(s, 0) == Some(1);
    assert FirstNonAlphanumeric(s, 2).None?;
    assert FirstDollar(s, 2).None?;
    assert s[2..] == "AB";
    assert s[0..1] == "x";
    assert "x$AB"[1..] == "$AB";
    assert FirstNonAlphanumeric("$AB", 1).None?;
    assert "$AB"[1..] == "AB";
    ExpandWithoutDollar("AB", env);
  }

  /** A `${` without a closing brace keeps its '$' and the rest as they are. */
  lemma UnclosedBraceKept(env: map<string, string>)
    ensures ExpandAsWritten("${A", env, 0) == Finished("${A")
    ensures Expand("${A", env) == "${A"
  {
    var s := "${A";
    assert FirstDollar(s, 0) == Some(0);
    assert JrtcConfig.CloseBrace(s, 2).None?;
    assert FirstDollar(s, 1).None?;
    assert s[1..] == "{A";
    ExpandWithoutDollar("{A", env);
  }

  // ---- the handlers (lib.rs:127-356) ----

  newtype int32 = x: int | -0x8000_0000 <= x < 0x8000_0000

  /** The JSON body of a load request. */
  datatype LoadRequest = LoadRequest(app: seq<bv8>, appName: string, runtimeUs: nat, deadlineUs: nat,
                                     periodUs: nat, ioqSize: nat, appParams: seq<string>)

  /** The request handed to the controller's load callback. */
  datatype CLoadRequest = CLoadRequest(app: seq<bv8>, appSize: nat, appName: string, runtimeUs: nat,
                                       deadlineUs: nat, periodUs: nat, ioqSize: nat, appParams: seq<string>)

  /** A loaded app: the callback's id, the request as received and the start time. */
  datatype AppState = AppState(id: int32, request: LoadRequest, startTime: string)

  datatype Body = NoBody | App(state: AppState) | Apps(states: seq<AppState>) | Details(message: string)

  /** A response, the handler's task panicking, or the handler never answering. */
  datatype Response = Response(status: int, body: Body) | Panicked | Hangs

  /** The slots of `app_params` the callback sees. */
  const MAX_APP_PARAMS := 255

  const NUL: char := '\0'

  /**
   * What mapping `expand_env_vars` and then `CString::new(..).unwrap()` over
   * every parameter gives: the texts, or the first parameter's expansion
   * spinning forever, or its text holding a NUL, which panics.
   */
  datatype Params = Converted(texts: seq<string>) | ParamLoops | ParamHasNul

  /** A parameter whose expansion as written finishes with a text free of NUL. */
  predicate Convertible(param: string, env: map<string, string>)
  {
    ExpandAsWritten(param, env, 0).Finished? && NUL !in ExpandAsWritten(param, env, 0).text
  }

  /** Each parameter's expansion as written, in order. */
  function Outcomes(params: seq<string>, env: map<string, string>): seq<RustExpansion>
  {
    seq(|params|, i requires 0 <= i < |params| => ExpandAsWritten(params[i], env, 0))
  }

  /** Expansion outcomes converted in order, up to the first that fails. */
  function Convert(outcomes: seq<RustExpansion>): Params
    decreases |outcomes|
  {
    if outcomes == [] then Converted([])
    else match outcomes[0]
      case Loops => ParamLoops
      case Finished(t) =>
        if NUL in t then ParamHasNul
        else Continue([t], Convert(outcomes[1..]))
  }

  /** The parameters converted in order, up to the first that fails. */
  function ConvertParams(params: seq<string>, env: map<string, string>): Params
  {
    Convert(Outcomes(params, env))
  }

  /** Converted texts put in front of the rest's, or the rest's failure. */
  function Continue(texts: seq<string>, r: Params): Params
  {
    if r.Converted? then Converted(texts + r.texts) else r
  }

  /**
   * The conversion succeeds exactly when every outcome is a finished text
   * free of NUL, and then gives those texts, in order.
   */
  lemma {:induction false} ConvertedMeaning(outcomes: seq<RustExpansion>)
    ensures Convert(outcomes).Converted? <==>
      forall i :: 0 <= i < |outcomes| ==> outcomes[i].Finished? && NUL !in outcomes[i].text
    ensures Convert(outcomes).Converted? ==>
      |Convert(outcomes).texts| == |outcomes| &&
      forall i :: 0 <= i < |outcomes| ==> outcomes[i] == Finished(Convert(outcomes).texts[i])
    decreases |outcomes|
  {
    if outcomes != [] {
      ConvertedMeaning(outcomes[1..]);
      assert forall i :: 1 <= i < |outcomes| ==> outcomes[i] == outcomes[1..][i - 1];
    }
  }

  lemma ContinueTwice(a: seq<string>, b: seq<string>, r: Params)
    ensures Continue(a, Continue(b, r)) == Continue(a + b, r)
  {
    if r.Converted? {
      assert a + (b + r.texts) == (a + b) + r.texts;
    }
  }

  /** After `k` outcomes converted to `texts`, the result is decided by the rest. */
  lemma {:induction false} ConvertPrefix(outcomes: seq<RustExpansion>, k: nat, texts: seq<string>)
    requires k <= |outcomes| && |texts| == k
    requires forall j :: 0 <= j < k ==> outcomes[j] == Finished(texts[j]) && NUL !in texts[j]
    ensures Convert(outcomes) == Continue(texts, Convert(outcomes[k..]))
    decreases k
  {
    if k == 0 {
      assert outcomes[0..] == outcomes;
      var r := Convert(outcomes);
      if r.Converted? {
        assert [] + r.texts == r.texts;
      }
    } else {
      var rest, ts := outcomes[1..], texts[1..];
      assert forall j :: 0 <= j < k - 1 ==> rest[j] == outcomes[j + 1] && ts[j] == texts[j + 1];
      ConvertPrefix(rest, k - 1, ts);
      assert rest[k - 1..] == outcomes[k..];
      ContinueTwice([texts[0]], ts, Convert(outcomes[k..]));
      assert [texts[0]] + ts == texts;
    }
  }

  /**
   * The first parameter that fails decides the outcome, wherever it stands:
   * a parameter past the 255th that spins or holds a NUL fails the load too.
   */
  lemma FirstFailureDecides(params: seq<string>, env: map<string, string>, k: nat, texts: seq<string>)
    requires k < |params| && |texts| == k
    requires forall j :: 0 <= j < k ==> ExpandAsWritten(params[j], env, 0) == Finished(texts[j]) && NUL !in texts[j]
    ensures ExpandAsWritten(params[k], env, 0).Loops? ==> ConvertParams(params, env) == ParamLoops
    ensures ExpandAsWritten(params[k], env, 0).Finished? && NUL in ExpandAsWritten(params[k], env, 0).text ==>
      ConvertParams(params, env) == ParamHasNul
  {
    var o := Outcomes(params, env);
    ConvertPrefix(o, k, texts);
    assert o[k..][0] == o[k];
  }

  /** Parameters that use only `${NAME}` reach the callback as the intended expansion gives them. */
  lemma BracedParamsAsIntended(params: seq<string>, env: map<string, string>)
    requires forall i :: 0 <= i < |params| ==> OnlyBraced(params[i], 0) && NUL !in Expand(params[i], env)
    ensures ConvertParams(params, env) == Converted(seq(|params|, i requires 0 <= i < |params| => Expand(params[i], env)))
  {
    var texts := seq(|params|, i requires 0 <= i < |params| => Expand(params[i], env));
    var o := Outcomes(params, env);
    forall j | 0 <= j < |params|
      ensures o[j] == Finished(texts[j])
    {
      BracedAgree(params[j], env, 0);
      assert params[j][0..] == params[j];
    }
    ConvertPrefix(o, |params|, texts);
    assert o[|params|..] == [];
    assert texts + [] == texts;
  }

  /**
   * The request for the callback: the converted parameters cut to the 255
   * slots of `app_params`, the rest of the request as sent.
   */
  function CRequest(req: LoadRequest, texts: seq<string>): (c: CLoadRequest)
    ensures |c.appParams| == if |texts| <= MAX_APP_PARAMS then |texts| else MAX_APP_PARAMS
    ensures c.appParams <= texts
    ensures c.appSize == |req.app| && c.app == req.app && c.appName == req.appName
  {
    var n := if |texts| <= MAX_APP_PARAMS then |texts| else MAX_APP_PARAMS;
    CLoadRequest(req.app, |req.app|, req.appName, req.runtimeUs, req.deadlineUs, req.periodUs, req.ioqSize, texts[..n])
  }

  /** The callback sees the first 255 parameters, each as the loop as written expands it, free of NUL. */
  lemma CallbackSeesAsWritten(req: LoadRequest, env: map<string, string>)
    requires ConvertParams(req.appParams, env).Converted?
    ensures var c := CRequest(req, ConvertParams(req.appParams, env).texts);
      |c.appParams| == (if |req.appParams| <= MAX_APP_PARAMS then |req.appParams| else MAX_APP_PARAMS) &&
      forall i :: 0 <= i < |c.appParams| ==>
        ExpandAsWritten(req.appParams[i], env, 0) == Finished(c.appParams[i]) && NUL !in c.appParams[i]
  {
    ConvertedMeaning(Outcomes(req.appParams, env));
  }

  /** The status for a load callback's result. */
  function LoadStatus(response: int32): (status: int)
    ensures status == 400 <==> response == -1
    ensures status == 500 <==> response <= -2
    ensures status == 200 <==> response >= 0
  {
    if response == -1 then 400 else if response <= -2 then 500 else 200
  }

  /** The index of the first app with `id`, if any. */
  function Position(apps: seq<AppState>, id: int32): (r: Option<nat>)
    ensures r.Some? ==> r.value < |apps| && apps[r.value].id == id
    ensures forall j :: 0 <= j < (if r.Some? then r.value else |apps|) ==> apps[j].id != id
    decreases |apps|
  {
    if apps == [] then None
    else if apps[0].id == id then Some(0)
    else match Position(apps[1..], id)
      case Some(k) => Some(k + 1)
      case None => None
  }

  /** `apps` without its element at `k`. */
  function RemoveAt(apps: seq<AppState>, k: nat): (r: seq<AppState>)
    requires k < |apps|
    ensures |r| == |apps| - 1
    ensures forall j :: 0 <= j < k ==> r[j] == apps[j]
    ensures forall j :: k <= j < |r| ==> r[j] == apps[j + 1]
  {
    apps[..k] + apps[k + 1..]
  }

  /** `load_app` on the list `apps`: the response and the new list. */
  function LoadApp(apps: seq<AppState>, req: LoadRequest, env: map<string, string>,
                   callback: Option<CLoadRequest -> int32>, now: string): (r: (Response, seq<AppState>))
    ensures r.0.Response? ==> r.0.status == 200 || r.0.status == 400 || r.0.status == 500
    ensures !(r.0.Response? && r.0.status == 200) ==> r.1 == apps
  {
    if NUL in req.appName then
      (Response(400, Details("app_name cannot be converted into c string = " + req.appName)), apps)
    else match ConvertParams(req.appParams, env)
      case ParamLoops => (Hangs, apps)
      case ParamHasNul => (Panicked, apps)
      case Converted(texts) =>
        var c := CRequest(req, texts);
        if callback.None? then (Response(500, Details("load_app callback is not set")), apps)
        else
          var response := callback.value(c);
          if response == -1 then (Response(400, Details("Bad request")), apps)
          else if response <= -2 then (Response(500, Details("Internal server error")), apps)
          else
            var app := AppState(response, req, now);
            (Response(200, App(app)), apps + [app])
  }

  /** `unload_app` on the list `apps`. */
  function UnloadApp(apps: seq<AppState>, id: int32, callback: Option<int32 -> int32>): (r: (Response, seq<AppState>))
    ensures r.0.Response? && (r.0.status == 204 || r.0.status == 404 || r.0.status == 500)
    ensures r.0.status != 204 ==> r.1 == apps
    ensures |r.1| == |apps| || |r.1| == |apps| - 1
  {
    if callback.None? then (Response(500, NoBody), apps)
    else
      var response := callback.value(id);
      if response == -1 then (Response(204, NoBody), apps)
      else if response <= -2 then (Response(500, Details("Internal server error")), apps)
      else match Position(apps, id)
        case Some(k) => (Response(204, NoBody), RemoveAt(apps, k))
        case None => (Response(404, Details("App not found")), apps)
  }

  /** `get_app`. */
  function GetApp(apps: seq<AppState>, id: int32): (r: Response)
    ensures r.Response? && (r.status == 200 <==> exists j :: 0 <= j < |apps| && apps[j].id == id)
    ensures r.status == 200 ==> r.body.App? && r.body.state in apps && r.body.state.id == id
    ensures r.status != 200 ==> r.status == 404
  {
    match Position(apps, id)
    case Some(k) => Response(200, App(apps[k]))
    case None => Response(404, Details("id = " + IntToString(id as int)))
  }

  /** The decimal text of an integer, as `format!("{}")` writes it: a '-' for a negative one, then the digits. */
  function IntToString(n: int): (s: string)
    ensures n >= 0 ==> s != [] && (forall k :: 0 <= k < |s| ==> '0' <= s[k] <= '9') && DecimalText.Value(s) == n
    ensures n < 0 ==> |s| >= 2 && s[0] == '-' && (forall k :: 1 <= k < |s| ==> '0' <= s[k] <= '9') && DecimalText.Value(s[1..]) == -n
  {
    if n < 0 then
      DecimalText.DecimalRoundTrip(-n);
      assert ("-" + DecimalText.Decimal(-n))[1..] == DecimalText.Decimal(-n);
      "-" + DecimalText.Decimal(-n)
    else
      DecimalText.DecimalRoundTrip(n);
      DecimalText.Decimal(n)
  }

  /** Distinct ids print differently, so the 404 text names the id asked for. */
  lemma IntToStringInjective(m: int, n: int)
    ensures IntToString(m) == IntToString(n) ==> m == n
  {
    if IntToString(m) == IntToString(n) && m < 0 && n < 0 {
      assert IntToString(m)[1..] == IntToString(n)[1..];
    }
  }

  /** Only a non-negative callback result changes the list, by appending the new app. */
  lemma LoadOnlyAppends(apps: seq<AppState>, req: LoadRequest, env: map<string, string>,
                        callback: Option<CLoadRequest -> int32>, now: string)
    ensures var (r, apps') := LoadApp(apps, req, env, callback, now);
      (r.Response? && r.status == 200) == (apps' != apps) &&
      (apps' != apps ==> apps' == apps + [r.body.state] && r.body.state.id >= 0 && r.body.state.request == req)
  {
  }

  /**
   * A load whose name and every parameter convert reaches the callback, with
   * the request `CRequest` builds, and answers the status its result maps to.
   */
  lemma LoadStatusMapping(apps: seq<AppState>, req: LoadRequest, env: map<string, string>,
                          callback: CLoadRequest -> int32, now: string)
    requires NUL !in req.appName
    requires forall i :: 0 <= i < |req.appParams| ==> Convertible(req.appParams[i], env)
    ensures ConvertParams(req.appParams, env).Converted?
    ensures var c := CRequest(req, ConvertParams(req.appParams, env).texts);
      LoadApp(apps, req, env, Some(callback), now).0 ==
      Response(LoadStatus(callback(c)), LoadApp(apps, req, env, Some(callback), now).0.body)
  {
    ConvertedMeaning(Outcomes(req.appParams, env));
  }

  /**
   * Any parameter, the 256th or later included, that spins makes the handler
   * hang and one whose text holds a NUL makes it panic, before the callback
   * is looked at, provided the parameters before it convert.
   */
  lemma LoadFailsOnParam(apps: seq<AppState>, req: LoadRequest, env: map<string, string>,
                         callback: Option<CLoadRequest -> int32>, now: string, k: nat)
    requires NUL !in req.appName && k < |req.appParams|
    requires forall j :: 0 <= j < k ==> Convertible(req.appParams[j], env)
    ensures ExpandAsWritten(req.appParams[k], env, 0).Loops? ==> LoadApp(apps, req, env, callback, now) == (Hangs, apps)
    ensures ExpandAsWritten(req.appParams[k], env, 0).Finished? && NUL in ExpandAsWritten(req.appParams[k], env, 0).text ==>
      LoadApp(apps, req, env, callback, now) == (Panicked, apps)
  {
    var texts := seq(k, j requires 0 <= j < k => ExpandAsWritten(req.appParams[j], env, 0).text);
    FirstFailureDecides(req.appParams, env, k, texts);
  }

  /** Unloading removes exactly the first app with the id, or answers 404 and keeps the list. */
  lemma {:induction false} UnloadRemovesFirst(apps: seq<AppState>, id: int32, callback: int32 -> int32)
    requires callback(id) >= 0
    ensures var (r, apps') := UnloadApp(apps, id, Some(callback));
      (r.status == 204 <==> id in AppIds(apps)) &&
      (r.status == 404 <==> id !in AppIds(apps)) &&
      (id in AppIds(apps) ==> |apps'| == |apps| - 1 && multiset(apps') + multiset{apps[Position(apps, id).value]} == multiset(apps)) &&
      (id !in AppIds(apps) ==> apps' == apps)
  {
    match Position(apps, id)
    case Some(k) =>
      assert id in AppIds(apps) by { IdsOf(apps, k); }
      assert apps == apps[..k] + [apps[k]] + apps[k + 1..];
    case None =>
      assert id !in AppIds(apps) by { NoIdOutside(apps, id); }
  }

  /** The ids of the apps in the list. */
  function AppIds(apps: seq<AppState>): (ids: set<int32>)
    ensures forall j :: 0 <= j < |apps| ==> apps[j].id in ids
  {
    set a | a in apps :: a.id
  }

  lemma IdsOf(apps: seq<AppState>, k: nat)
    requires k < |apps|
    ensures apps[k].id in AppIds(apps)
  {
  }

  lemma NoIdOutside(apps: seq<AppState>, id: int32)
    requires Position(apps, id).None?
    ensures id !in AppIds(apps)
  {
  }

  /** A callback result of -1 answers 204 and changes nothing. */
  lemma UnloadMinusOneKeepsList(apps: seq<AppState>, id: int32, callback: int32 -> int32)
    requires callback(id) == -1
    ensures UnloadApp(apps, id, Some(callback)) == (Response(204, NoBody), apps)
  {
  }

  /** An app loaded under a fresh id is what `get_app` returns for that id. */
  lemma GetAfterLoad(apps: seq<AppState>, req: LoadRequest, env: map<string, string>,
                     callback: Option<CLoadRequest -> int32>, now: string)
    requires var (r, _) := LoadApp(apps, req, env, callback, now); r.Response? && r.status == 200
    requires LoadApp(apps, req, env, callback, now).0.body.state.id !in AppIds(apps)
    ensures var (r, apps') := LoadApp(apps, req, env, callback, now);
      GetApp(apps', r.body.state.id) == Response(200, App(AppState(r.body.state.id, req, now)))
  {
    var (r, apps') := LoadApp(apps, req, env, callback, now);
    var id := r.body.state.id;
    assert Position(apps, id).None? by {
      if Position(apps, id).Some? { IdsOf(apps, Position(apps, id).value); }
    }
    PositionAppended(apps, r.body.state);
  }

  lemma {:induction false} PositionAppended(apps: seq<AppState>, a: AppState)
    requires Position(apps, a.id).None?
    ensures Position(apps + [a], a.id) == Some(|apps|)
    decreases |apps|
  {
    if apps != [] {
      assert (apps + [a])[1..] == apps[1..] + [a];
      PositionAppended(apps[1..], a);
    }
  }

  /** The server state: the callbacks it was started with and the list of loaded apps. */
  class ServerState {
    const loadCallback: Option<CLoadRequest -> int32>
    const unloadCallback: Option<int32 -> int32>
    var apps: seq<AppState>

    constructor (loadCallback: Option<CLoadRequest -> int32>, unloadCallback: Option<int32 -> int32>)
      ensures this.loadCallback == loadCallback && this.unloadCallback == unloadCallback && apps == []
    {
      this.loadCallback := loadCallback;
      this.unloadCallback := unloadCallback;
      apps := [];
    }

    /** `POST /app`. */
    method Load(req: LoadRequest, env: map<string, string>, now: string) returns (r: Response)
      modifies this
      ensures (r, apps) == LoadApp(old(apps), req, env, loadCallback, now)
    {
      if NUL in req.appName {
        return Response(400, Details("app_name cannot be converted into c string = " + req.appName));
      }
      var texts: seq<string> := [];
      var i := 0;
      while i < |req.appParams|
        invariant 0 <= i <= |req.appParams| && |texts| == i && apps == old(apps)
        invariant forall j :: 0 <= j < i ==> ExpandAsWritten(req.appParams[j], env, 0) == Finished(texts[j]) && NUL !in texts[j]
      {
        var e := ExpandEnvVars(req.appParams[i], env);
        if e.Loops? {
          FirstFailureDecides(req.appParams, env, i, texts);
          return Hangs;
        }
        if NUL in e.text {
          FirstFailureDecides(req.appParams, env, i, texts);
          return Panicked;
        }
        texts := texts + [e.text];
        i := i + 1;
      }
      ConvertPrefix(Outcomes(req.appParams, env), i, texts);
      assert Outcomes(req.appParams, env)[i..] == [] && texts + [] == texts;
      assert ConvertParams(req.appParams, env) == Converted(texts);
      var c := CRequest(req, texts);
      if loadCallback.None? {
        return Response(500, Details("load_app callback is not set"));
      }
      var response := loadCallback.value(c);
      if response == -1 {
        return Response(400, Details("Bad request"));
      } else if response <= -2 {
        return Response(500, Details("Internal server error"));
      }
      var app := AppState(response, req, now);
      apps := apps + [app];
      return Response(200, App(app));
    }

    /** `DELETE /app/{id}`. */
    method Unload(id: int32) returns (r: Response)
      modifies this
      ensures (r, apps) == UnloadApp(old(apps), id, unloadCallback)
    {
      if unloadCallback.None? {
        return Response(500, NoBody);
      }
      var response := unloadCallback.value(id);
      if response == -1 {
        return Response(204, NoBody);
      } else if response <= -2 {
        return Response(500, Details("Internal server error"));
      }
      var index := Position(apps, id);
      if index.Some? {
        apps := RemoveAt(apps, index.value);
        return Response(204, NoBody);
      }
      return Response(404, Details("App not found"));
    }

    /** `GET /app/{id}`. */
    method Get(id: int32) returns (r: Response)
      ensures r == GetApp(apps, id)
    {
      r := GetApp(apps, id);
    }

    /** `GET /app`: every loaded app, in load order. */
    method GetAll() returns (r: Response)
      ensures r == Response(200, Apps(apps))
    {
      r := Response(200, Apps(apps));
    }
  }
}
