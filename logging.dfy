/**
 * The runtime's logger (src/logger): the prefix every message carries,
 * naming the source directory it comes from, and the default logging
 * function, which writes a message only at or above the global level,
 * DEBUG messages to standard output and the rest to standard error.
 * The `printf`-style arguments are not formatted: what is written is the
 * format text the logger builds.
 */
module Logging {
  import opened Wrappers
  import opened CString
  import DecimalText

  /** `jrtc_logging_level`, in declaration order. */
  datatype Level = DEBUG | INFO | WARN | ERROR | CRITICAL

  /** The enumerator's value. */
  function Rank(l: Level): nat
  {
    match l
    case DEBUG => 0
    case INFO => 1
    case WARN => 2
    case ERROR => 3
    case CRITICAL => 4
  }

  /** `STR[level]`: the level's name between brackets, then ": ". */
  function LevelTag(l: Level): string
  {
    match l
    case DEBUG => "[DEBUG]: "
    case INFO => "[INFO]: "
    case WARN => "[WARN]: "
    case ERROR => "[ERROR]: "
    case CRITICAL => "[CRITICAL]: "
  }

  /** The levels are ordered as declared, each value distinct. */
  lemma LevelsOrdered(a: Level, b: Level)
    ensures Rank(DEBUG) < Rank(INFO) < Rank(WARN) < Rank(ERROR) < Rank(CRITICAL)
    ensures Rank(a) == Rank(b) ==> a == b
  {
  }

  /** `snprintf` into a buffer of `size` bytes keeps at most `size - 1` characters. */
  function Truncate(s: string, size: nat): (r: string)
    requires size > 0
    ensures r <= s && |r| < size
    ensures |s| < size ==> r == s
    ensures |s| >= size ==> |r| == size - 1
  {
    if |s| < size then s else s[..size - 1]
  }

  // ---------------------------------------------------------------- the prefix

  /** `toupper` in the C locale. */
  function ToUpper(c: char): (u: char)
    ensures !('a' <= u <= 'z')
    ensures !('a' <= c <= 'z') ==> u == c
  {
    if 'a' <= c <= 'z' then (c as int - 'a' as int + 'A' as int) as char else c
  }

  function Upper(s: string): (r: string)
    ensures |r| == |s| && forall i :: 0 <= i < |s| ==> r[i] == ToUpper(s[i])
  {
    seq(|s|, i requires 0 <= i < |s| => ToUpper(s[i]))
  }

  const SRC := "src/"

  /**
   * `get_domain`: the segment after the first "src/" up to the next '/',
   * upper-cased; NULL when there is no "src/" or no '/' after it.
   */
  function GetDomain(file: string): (r: Option<string>)
    ensures r.None? <==> FindFrom(file, SRC, 0).None? || '/' !in file[FindFrom(file, SRC, 0).value + 4..]
    ensures r.Some? ==> var start := FindFrom(file, SRC, 0).value + 4;
      start + |r.value| < |file| && file[start + |r.value|] == '/' && '/' !in file[start..start + |r.value|] &&
      r.value == Upper(file[start..start + |r.value|])
  {
    match FindFrom(file, SRC, 0)
    case None => None
    case Some(i) =>
      var rest := file[i + 4..];
      match FirstIndexOf(rest, '/')
      case None => None
      case Some(q) =>
        assert rest[..q] == file[i + 4..i + 4 + q];
        Some(Upper(rest[..q]))
  }

  /** The text `get_log_prefix` formats, before truncation; `verbose` is whether JRTC_VERBOSE_LOGGING is set. */
  function PrefixText(file: string, func: string, line: nat, verbose: bool): string
  {
    var tag := match GetDomain(file) case Some(d) => "[JRTC][" + d + "]" case None => "[JRTC]";
    if verbose then tag + ":" + FileName(file) + ":" + func + ":" + DecimalText.Decimal(line) else tag
  }

  /** `get_log_prefix`: the text, cut to the 256-byte buffer. */
  function LogPrefix(file: string, func: string, line: nat, verbose: bool): (r: string)
    ensures |r| <= 255 && r <= PrefixText(file, func, line, verbose)
    ensures |PrefixText(file, func, line, verbose)| <= 255 ==> r == PrefixText(file, func, line, verbose)
    ensures |PrefixText(file, func, line, verbose)| > 255 ==> r == PrefixText(file, func, line, verbose)[..255]
  {
    Truncate(PrefixText(file, func, line, verbose), 256)
  }

  /** Every prefix starts "[JRTC]"; without the verbose flag it is exactly the domain tag. */
  lemma PrefixStartsWithJrtc(file: string, func: string, line: nat, verbose: bool)
    ensures "[JRTC]" <= LogPrefix(file, func, line, verbose)
    ensures !verbose && GetDomain(file).None? ==> LogPrefix(file, func, line, verbose) == "[JRTC]"
    ensures !verbose && GetDomain(file).Some? && |GetDomain(file).value| <= 247 ==>
      LogPrefix(file, func, line, verbose) == "[JRTC][" + GetDomain(file).value + "]"
  {
    var t := PrefixText(file, func, line, verbose);
    assert "[JRTC]" <= t;
  }

  /** A path "src/<dir>/<rest>" has domain <dir>, upper-cased, whatever follows. */
  lemma DomainOfSrcPath(dir: string, rest: string)
    requires '/' !in dir
    ensures GetDomain(SRC + dir + "/" + rest) == Some(Upper(dir))
  {
    var f := SRC + dir + "/" + rest;
    assert f[0..4] == SRC;
    assert FindFrom(f, SRC, 0) == Some(0);
    var after := f[4..];
    assert after == dir + "/" + rest;
    assert after[|dir|] == '/' && after[..|dir|] == dir;
  }

  /** A path without "src/" has no domain. */
  lemma NoDomainOutsideSrc(file: string)
    requires forall i :: !OccursAt(file, SRC, i)
    ensures GetDomain(file) == None
  {
  }

  /** Nor does a path with no '/' after its "src/". */
  lemma NoDomainWithoutDir(name: string)
    requires '/' !in name
    ensures GetDomain(SRC + name) == None
  {
    var f := SRC + name;
    assert f[0..4] == SRC;
    assert FindFrom(f, SRC, 0) == Some(0);
    assert f[4..] == name;
  }

  // ---------------------------------------------------------------- the default logger

  /** The two output streams. */
  datatype Stream = Stdout | Stderr

  /** The stream a message of level `l` goes to: standard output for DEBUG only. */
  function Where(l: Level): (st: Stream)
    ensures st == Stdout <==> l == DEBUG
  {
    if Rank(l) >= Rank(INFO) then Stderr else Stdout
  }

  /**
   * Whether a message of level `l` is written when the global level is
   * `threshold`: a message at the level itself, any message at level DEBUG,
   * and a CRITICAL message at any level are written; a DEBUG message only
   * at level DEBUG.
   */
  predicate Emits(l: Level, threshold: Level): (b: bool)
    ensures l == threshold || threshold == DEBUG || l == CRITICAL ==> b
    ensures l == DEBUG ==> (b <==> threshold == DEBUG)
  {
    Rank(l) >= Rank(threshold)
  }

  /** The format text written: domain, a space, the level tag and the message, cut to the 8192-byte buffer. */
  function Output(domain: string, l: Level, s: string): (r: string)
    ensures |r| <= 8191 && r <= domain + " " + LevelTag(l) + s
    ensures |domain + " " + LevelTag(l) + s| <= 8191 ==> r == domain + " " + LevelTag(l) + s
    ensures |domain + " " + LevelTag(l) + s| > 8191 ==> r == (domain + " " + LevelTag(l) + s)[..8191]
  {
    Truncate(domain + " " + LevelTag(l) + s, 8192)
  }

  /**
   * Only DEBUG goes to standard output; raising the level never lets
   * through a message it stopped before, and at the default level DEBUG
   * everything is written.
   */
  lemma FilterAndStream(l: Level, threshold: Level, higher: Level)
    ensures Where(l) == Stdout <==> l == DEBUG
    ensures Emits(l, DEBUG)
    ensures Rank(higher) >= Rank(threshold) && Emits(l, higher) ==> Emits(l, threshold)
    ensures Emits(CRITICAL, threshold)
  {
  }

  /** A logging function pointer: one of the two defaults, or a function the application installs. */
  datatype LogFn = DefaultLogging | DefaultVaLogging | Custom(id: nat)

  /** The logger's globals and what it has written to each stream. */
  class Logger {
    /** `jrtc_logger_level`. */
    var level: Level
    /** `jrtc_logger`. */
    var logger: LogFn
    /** `jrtc_va_logger`. */
    var vaLogger: LogFn
    var stdout: seq<string>
    var stderr: seq<string>

    /** The globals' initial values. */
    constructor ()
      ensures level == DEBUG && logger == DefaultLogging && vaLogger == DefaultVaLogging
      ensures stdout == [] && stderr == []
    {
      level := DEBUG;
      logger := DefaultLogging;
      vaLogger := DefaultVaLogging;
      stdout, stderr := [], [];
    }

    /**
     * `jrtc_default_logging`, and `jrtc_default_va_logging`, which builds the
     * text before testing the level and so behaves the same: a message at or
     * above the level is appended to its stream, and nothing else changes.
     */
    method Log(domain: string, l: Level, s: string)
      modifies this
      ensures level == old(level) && logger == old(logger) && vaLogger == old(vaLogger)
      ensures !Emits(l, level) ==> stdout == old(stdout) && stderr == old(stderr)
      ensures Emits(l, level) && Where(l) == Stderr ==> stderr == old(stderr) + [Output(domain, l, s)] && stdout == old(stdout)
      ensures Emits(l, level) && Where(l) == Stdout ==> stdout == old(stdout) + [Output(domain, l, s)] && stderr == old(stderr)
    {
      if Rank(l) >= Rank(level) {
        var output := Output(domain, l, s);
        if Rank(l) >= Rank(INFO) {
          stderr := stderr + [output];
        } else {
          stdout := stdout + [output];
        }
      }
    }

    /** `jrtc_set_logging_level`. */
    method SetLevel(l: Level)
      modifies this
      ensures level == l && logger == old(logger) && vaLogger == old(vaLogger)
      ensures stdout == old(stdout) && stderr == old(stderr)
    {
      level := l;
    }

    /** `jrtc_set_logging_function`. */
    method SetLoggingFunction(f: LogFn)
      modifies this
      ensures logger == f && level == old(level) && vaLogger == old(vaLogger)
      ensures stdout == old(stdout) && stderr == old(stderr)
    {
      logger := f;
    }

    /** `jrtc_set_va_logging_function`. */
    method SetVaLoggingFunction(f: LogFn)
      modifies this
      ensures vaLogger == f && level == old(level) && logger == old(logger)
      ensures stdout == old(stdout) && stderr == old(stderr)
    {
      vaLogger := f;
    }
  }
}
