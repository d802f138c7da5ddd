/**
 * Reading a `key = value` configuration text (`config2dic`).
 *
 * The text is split on `'\n'`. A line is skipped when it is empty or when
 * its first character other than `' '` is `'#'`; a non-empty line made only
 * of `' '` has no such character and raises `IndexError`. Any other line is
 * split on `'='`; the stripped first piece is the key, the stripped second
 * piece the value, and a line without `'='` raises `IndexError`. A later
 * line overrides an earlier one with the same key. Reading the file is
 * left to the caller: the model starts from its text.
 */
module Config {
  import opened Common

  // ------------------------------------------------- str.split(sep)

  /** The position of the first `c` in `s`. */
  function Find(s: string, c: char): (k: nat)
    requires c in s
    ensures k < |s| && s[k] == c
    ensures forall j :: 0 <= j < k ==> s[j] != c
  {
    if s[0] == c then 0 else 1 + Find(s[1..], c)
  }

  /** `s.split(d)` for a one-character separator: the pieces between the separators. */
  function Split(s: string, d: char): (r: seq<string>)
    ensures |r| >= 1
    ensures forall n :: 0 <= n < |r| ==> d !in r[n]
    ensures |r| >= 2 <==> d in s
    ensures r[0] == if d in s then s[..Find(s, d)] else s
    decreases |s|
  {
    if d !in s then [s]
    else
      var k := Find(s, d);
      assert forall j :: 0 <= j < k ==> s[..k][j] == s[j];
      [s[..k]] + Split(s[k + 1..], d)
  }

  /** `d.join(parts)`. */
  function Join(parts: seq<string>, d: char): string
    requires |parts| >= 1
  {
    if |parts| == 1 then parts[0] else parts[0] + [d] + Join(parts[1..], d)
  }

  /** Joining the pieces with the separator gives the text back. */
  lemma {:induction false} JoinSplit(s: string, d: char)
    ensures Join(Split(s, d), d) == s
    decreases |s|
  {
    if d in s {
      var k := Find(s, d);
      JoinSplit(s[k + 1..], d);
      assert s == s[..k] + [d] + s[k + 1..];
    }
  }

  /** Pieces without the separator are recovered by splitting their join. */
  lemma {:induction false} SplitJoin(parts: seq<string>, d: char)
    requires |parts| >= 1
    requires forall n :: 0 <= n < |parts| ==> d !in parts[n]
    ensures Split(Join(parts, d), d) == parts
  {
    if |parts| > 1 {
      var p, rest := parts[0], parts[1..];
      assert Join(parts, d) == p + [d] + Join(rest, d);
      assert forall n :: 0 <= n < |rest| ==> rest[n] == parts[n + 1];
      SplitFirst(p, Join(rest, d), d);
      SplitJoin(rest, d);
      assert parts == [p] + rest;
    }
  }

  /** A first piece without the separator is the first piece split off. */
  lemma SplitFirst(p: string, rest: string, d: char)
    requires d !in p
    ensures Split(p + [d] + rest, d) == [p] + Split(rest, d)
  {
    var s := p + [d] + rest;
    assert s[|p|] == d;
    assert forall j :: 0 <= j < |p| ==> s[j] == p[j];
    assert Find(s, d) == |p| by {
      var k := Find(s, d);
      assert k <= |p|;
    }
    assert s[|p| + 1..] == rest;
    assert s[..|p|] == p;
  }

  // ------------------------------------------------- str.strip()

  /** `str.isspace` for one character (Python 3, Unicode). */
  predicate IsSpace(c: char) {
    var x := c as int;
    (0x09 <= x <= 0x0D) || (0x1C <= x <= 0x20) || x == 0x85 || x == 0xA0 || x == 0x1680 ||
    (0x2000 <= x <= 0x200A) || x == 0x2028 || x == 0x2029 || x == 0x202F || x == 0x205F || x == 0x3000
  }

  predicate AllSpace(s: string) {
    forall k :: 0 <= k < |s| ==> IsSpace(s[k])
  }

  /** `s.lstrip()`. */
  function StripLeft(s: string): (r: string)
    ensures |r| <= |s| && r == s[|s| - |r|..]
    ensures AllSpace(s[..|s| - |r|])
    ensures r == [] || !IsSpace(r[0])
  {
    if s != [] && IsSpace(s[0]) then
      var r := StripLeft(s[1..]);
      assert s[..|s| - |r|] == [s[0]] + s[1..][..|s| - 1 - |r|];
      r
    else s
  }

  /** `s.rstrip()`. */
  function StripRight(s: string): (r: string)
    ensures |r| <= |s| && r == s[..|r|]
    ensures AllSpace(s[|r|..])
    ensures r == [] || !IsSpace(r[|r| - 1])
  {
    if s != [] && IsSpace(s[|s| - 1]) then
      var r := StripRight(s[..|s| - 1]);
      assert s[|r|..] == s[..|s| - 1][|r|..] + [s[|s| - 1]];
      r
    else s
  }

  /** `s.strip()`. */
  function Strip(s: string): string {
    StripRight(StripLeft(s))
  }

  lemma {:induction false} StripLeftPadded(pre: string, t: string)
    requires AllSpace(pre) && (t == [] || !IsSpace(t[0]))
    ensures StripLeft(pre + t) == t
    decreases |pre|
  {
    if pre != [] {
      assert (pre + t)[1..] == pre[1..] + t;
      StripLeftPadded(pre[1..], t);
    } else {
      assert pre + t == t;
    }
  }

  lemma {:induction false} StripRightPadded(t: string, post: string)
    requires AllSpace(post) && (t == [] || !IsSpace(t[|t| - 1]))
    ensures StripRight(t + post) == t
    decreases |post|
  {
    if post != [] {
      assert (t + post)[..|t + post| - 1] == t + post[..|post| - 1];
      StripRightPadded(t, post[..|post| - 1]);
    } else {
      assert t + post == t;
    }
  }

  /**
   * `strip` removes exactly the surrounding whitespace: a text whose ends are
   * not whitespace comes back from any padding with whitespace.
   */
  lemma StripPadded(pre: string, t: string, post: string)
    requires AllSpace(pre) && AllSpace(post)
    requires t == [] || (!IsSpace(t[0]) && !IsSpace(t[|t| - 1]))
    ensures Strip(pre + t + post) == t
  {
    if t == [] {
      assert pre + t + post == pre + post;
      assert AllSpace(pre + post);
      StripLeftPadded(pre + post, []);
      assert pre + post + [] == pre + post;
    } else {
      assert pre + t + post == pre + (t + post);
      StripLeftPadded(pre, t + post);
      StripRightPadded(t, post);
    }
  }

  /** A stripped text has no whitespace at either end. */
  lemma StripEnds(s: string)
    ensures Strip(s) == [] || (!IsSpace(Strip(s)[0]) && !IsSpace(Strip(s)[|Strip(s)| - 1]))
  {
    var l := StripLeft(s);
    var r := StripRight(l);
    if r != [] {
      assert r[0] == l[0];
    }
  }

  /** Stripping a stripped text changes nothing. */
  lemma StripIdempotent(s: string)
    ensures Strip(Strip(s)) == Strip(s)
  {
    var r := Strip(s);
    StripEnds(s);
    assert StripLeft(r) == r;
    assert StripRight(r) == r;
  }

  // ------------------------------------------------- one line

  /** The number of `' '` a line starts with. */
  function LeadingBlanks(s: string): (n: nat)
    ensures n <= |s|
    ensures forall j :: 0 <= j < n ==> s[j] == ' '
    ensures n < |s| ==> s[n] != ' '
  {
    if s != [] && s[0] == ' ' then 1 + LeadingBlanks(s[1..]) else 0
  }

  /** `line.replace(' ', '')`. */
  function RemoveSpaces(s: string): (r: string)
    ensures ' ' !in r
  {
    if s == [] then []
    else if s[0] == ' ' then RemoveSpaces(s[1..])
    else [s[0]] + RemoveSpaces(s[1..])
  }

  /** Removing the blanks leaves nothing for a line of blanks, else starts with its first non-blank. */
  lemma {:induction false} RemoveSpacesHead(s: string)
    ensures RemoveSpaces(s) == [] <==> LeadingBlanks(s) == |s|
    ensures RemoveSpaces(s) != [] ==> RemoveSpaces(s)[0] == s[LeadingBlanks(s)]
  {
    if s != [] && s[0] == ' ' {
      RemoveSpacesHead(s[1..]);
    }
  }

  /** What one line contributes. */
  datatype LineKind = Skipped | Entry(key: string, value: string) | Malformed

  /** The treatment of one line in `config2dic`; `Malformed` is an `IndexError`. */
  function ClassifyLine(line: string): LineKind {
    if |line| == 0 then Skipped
    else
      var compact := RemoveSpaces(line);
      if compact == [] then Malformed
      else if compact[0] == '#' then Skipped
      else
        var parts := Split(line, '=');
        if |parts| < 2 then Malformed
        else Entry(Strip(parts[0]), Strip(parts[1]))
  }

  /**
   * A line is skipped exactly when it is empty or its first non-blank
   * character is `'#'`; it is malformed exactly when it is made of blanks or
   * is not a comment and has no `'='`; an entry's key is the stripped text
   * before the first `'='` and its value the stripped text between the first
   * `'='` and the next one (or the end of the line).
   */
  lemma ClassifyLineCases(line: string)
    ensures var b := LeadingBlanks(line);
            ClassifyLine(line) == Skipped <==> |line| == 0 || (b < |line| && line[b] == '#')
    ensures var b := LeadingBlanks(line);
            ClassifyLine(line) == Malformed <==> |line| > 0 && (b == |line| || (line[b] != '#' && '=' !in line))
    ensures ClassifyLine(line).Entry? ==> '=' in line && ClassifyLine(line).key == Strip(line[..Find(line, '=')])
    ensures ClassifyLine(line).Entry? ==>
              var rest := line[Find(line, '=') + 1..];
              ClassifyLine(line).value == Strip(if '=' in rest then rest[..Find(rest, '=')] else rest)
  {
    RemoveSpacesHead(line);
    if '=' in line {
      var k := Find(line, '=');
      assert line == line[..k] + ['='] + line[k + 1..];
      SplitFirst(line[..k], line[k + 1..], '=');
    }
  }

  // ------------------------------------------------- the whole text

  datatype ConfigError = IndexError(lineNo: nat)

  /** The kind of every line, in order. */
  function Kinds(lines: seq<string>): (kinds: seq<LineKind>)
    ensures |kinds| == |lines|
    ensures forall n :: 0 <= n < |lines| ==> kinds[n] == ClassifyLine(lines[n])
  {
    seq(|lines|, n requires 0 <= n < |lines| => ClassifyLine(lines[n]))
  }

  /** The dictionary built from the lines `i ..` of kinds `kinds`, starting from `acc`. */
  function ParseFrom(kinds: seq<LineKind>, i: nat, acc: map<string, string>): Result<map<string, string>, ConfigError>
    requires i <= |kinds|
    decreases |kinds| - i
  {
    if i == |kinds| then Success(acc)
    else match kinds[i]
      case Skipped => ParseFrom(kinds, i + 1, acc)
      case Entry(k, v) => ParseFrom(kinds, i + 1, acc[k := v])
      case Malformed => Failure(IndexError(i))
  }

  /** The dictionary built from lines of kinds `kinds`, or the line that raises. */
  function ParseKinds(kinds: seq<LineKind>): Result<map<string, string>, ConfigError> {
    ParseFrom(kinds, 0, map[])
  }

  /** What `config2dic` returns for the text of a file, or the line that raises. */
  function ParseConfig(txt: string): Result<map<string, string>, ConfigError> {
    ParseKinds(Kinds(Split(txt, '\n')))
  }

  /** `config2dic`, reading the lines one by one. */
  method Config2Dic(txt: string) returns (r: Result<map<string, string>, ConfigError>)
    ensures r == ParseConfig(txt)
  {
    var lines := Split(txt, '\n');
    ghost var kinds := Kinds(lines);
    var argsDict: map<string, string> := map[];
    assert ParseConfig(txt) == ParseKinds(kinds) == ParseFrom(kinds, 0, argsDict);
    var i := 0;
    while i < |lines|
      invariant 0 <= i <= |lines|
      invariant ParseFrom(kinds, i, argsDict) == ParseKinds(kinds)
    {
      match ClassifyLine(lines[i]) {
        case Malformed =>
          return Failure(IndexError(i));
        case Entry(key, val) =>
          argsDict := argsDict[key := val];
        case Skipped =>
      }
      i := i + 1;
    }
    return Success(argsDict);
  }

  /** The text is read without error exactly when no line is malformed; else the first malformed line raises. */
  lemma {:induction false} ParseFromError(kinds: seq<LineKind>, i: nat, acc: map<string, string>)
    requires i <= |kinds|
    ensures ParseFrom(kinds, i, acc).Success? <==> forall n :: i <= n < |kinds| ==> kinds[n] != Malformed
    ensures ParseFrom(kinds, i, acc).Failure? ==>
              var n := ParseFrom(kinds, i, acc).error.lineNo;
              i <= n < |kinds| && kinds[n] == Malformed && forall m :: i <= m < n ==> kinds[m] != Malformed
    decreases |kinds| - i
  {
    if i < |kinds| {
      match kinds[i]
      case Skipped => ParseFromError(kinds, i + 1, acc);
      case Entry(k, v) => ParseFromError(kinds, i + 1, acc[k := v]);
      case Malformed =>
    }
  }

  /** A key without an entry from line `i` on keeps what `acc` says about it. */
  lemma {:induction false} ParseFromUntouched(kinds: seq<LineKind>, i: nat, acc: map<string, string>, k: string)
    requires i <= |kinds| && ParseFrom(kinds, i, acc).Success?
    requires forall n :: i <= n < |kinds| ==> !(kinds[n].Entry? && kinds[n].key == k)
    ensures k in ParseFrom(kinds, i, acc).value <==> k in acc
    ensures k in acc ==> ParseFrom(kinds, i, acc).value[k] == acc[k]
    decreases |kinds| - i
  {
    if i < |kinds| {
      match kinds[i]
      case Skipped => ParseFromUntouched(kinds, i + 1, acc, k);
      case Entry(k', v) => ParseFromUntouched(kinds, i + 1, acc[k' := v], k);
    }
  }

  /** Each key holds the value of its last entry. */
  lemma {:induction false} ParseFromLast(kinds: seq<LineKind>, i: nat, acc: map<string, string>, n: nat)
    requires i <= n < |kinds| && kinds[n].Entry? && ParseFrom(kinds, i, acc).Success?
    requires forall m :: n < m < |kinds| ==> !(kinds[m].Entry? && kinds[m].key == kinds[n].key)
    ensures kinds[n].key in ParseFrom(kinds, i, acc).value
    ensures ParseFrom(kinds, i, acc).value[kinds[n].key] == kinds[n].value
    decreases |kinds| - i
  {
    match kinds[i]
    case Skipped => ParseFromLast(kinds, i + 1, acc, n);
    case Entry(k', v') =>
      if i == n {
        ParseFromUntouched(kinds, i + 1, acc[k' := v'], k');
      } else {
        ParseFromLast(kinds, i + 1, acc[k' := v'], n);
      }
  }

  /** The keys are those of `acc` and of the entries from line `i` on. */
  lemma {:induction false} ParseFromKeys(kinds: seq<LineKind>, i: nat, acc: map<string, string>, k: string)
    requires i <= |kinds| && ParseFrom(kinds, i, acc).Success?
    ensures k in ParseFrom(kinds, i, acc).value <==>
              k in acc || exists n :: i <= n < |kinds| && kinds[n].Entry? && kinds[n].key == k
    decreases |kinds| - i
  {
    if i < |kinds| {
      match kinds[i]
      case Skipped => ParseFromKeys(kinds, i + 1, acc, k);
      case Entry(k', v') => ParseFromKeys(kinds, i + 1, acc[k' := v'], k);
    }
  }

  /** The keys of the dictionary are the keys of the entry lines. */
  lemma ParseKindsKeys(kinds: seq<LineKind>, k: string)
    requires ParseKinds(kinds).Success?
    ensures k in ParseKinds(kinds).value <==> exists n :: 0 <= n < |kinds| && kinds[n].Entry? && kinds[n].key == k
  {
    var empty: map<string, string> := map[];
    ParseFromKeys(kinds, 0, empty, k);
    assert k !in empty;
  }

  /** Each key of the dictionary holds the value of the last line that sets it. */
  lemma ParseKindsLast(kinds: seq<LineKind>, n: nat)
    requires ParseKinds(kinds).Success?
    requires n < |kinds| && kinds[n].Entry?
    requires forall m :: n < m < |kinds| ==> !(kinds[m].Entry? && kinds[m].key == kinds[n].key)
    ensures kinds[n].key in ParseKinds(kinds).value && ParseKinds(kinds).value[kinds[n].key] == kinds[n].value
  {
    ParseFromLast(kinds, 0, map[], n);
  }

  /** Reading fails exactly when some line is malformed, and then on the first one. */
  lemma ParseKindsError(kinds: seq<LineKind>)
    ensures ParseKinds(kinds).Success? <==> forall n :: 0 <= n < |kinds| ==> kinds[n] != Malformed
    ensures ParseKinds(kinds).Failure? ==>
              var n := ParseKinds(kinds).error.lineNo;
              n < |kinds| && kinds[n] == Malformed && forall m :: 0 <= m < n ==> kinds[m] != Malformed
  {
    ParseFromError(kinds, 0, map[]);
  }

  /** `config2dic` fails exactly on a text with a malformed line, and names the first one. */
  lemma ParseConfigError(txt: string)
    ensures var lines := Split(txt, '\n');
            ParseConfig(txt).Success? <==> forall n :: 0 <= n < |lines| ==> ClassifyLine(lines[n]) != Malformed
    ensures var lines := Split(txt, '\n');
            ParseConfig(txt).Failure? ==>
              var n := ParseConfig(txt).error.lineNo;
              n < |lines| && ClassifyLine(lines[n]) == Malformed &&
              forall m :: 0 <= m < n ==> ClassifyLine(lines[m]) != Malformed
  {
    var lines := Split(txt, '\n');
    var kinds := Kinds(lines);
    ParseKindsError(kinds);
  }
}
