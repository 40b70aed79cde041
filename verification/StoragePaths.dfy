/** Where the files of a job live in the object store. */
module StoragePaths {
  import opened Prelude
  import Decimal

  const JOBS_PREFIX := "jobs"
  const INPUT_BASENAME := "input"

  /** The index of the last occurrence of `c`, or -1. */
  function RFind(s: string, c: char): (i: int)
    ensures -1 <= i < |s| && (i >= 0 ==> s[i] == c)
    decreases |s|
  {
    if |s| == 0 then -1
    else if s[|s| - 1] == c then |s| - 1
    else RFind(s[..|s| - 1], c)
  }

  function ReplaceBackslashes(s: string): string {
    seq(|s|, i requires 0 <= i < |s| => if s[i] == '\\' then '/' else s[i])
  }

  /** Neither empty nor `.`. */
  predicate Counts(s: string) {
    |s| > 0 && !(|s| == 1 && s[0] == '.')
  }

  function Added(front: seq<string>, last: string): seq<string> {
    if Counts(last) then front + [last] else front
  }

  /** The components of a POSIX path: empty ones and `.` are dropped. */
  function Parts(path: string): seq<string>
    decreases |path|
  {
    var i := RFind(path, '/');
    if i < 0 then Added([], path) else Added(Parts(path[..i]), path[i + 1..])
  }

  /** `PurePosixPath(path).name`. */
  function Name(path: string): string {
    var parts := Parts(path);
    if |parts| == 0 then "" else parts[|parts| - 1]
  }

  /** `PurePosixPath(path).suffix`. */
  function Suffix(path: string): string {
    var name := Name(path);
    var i := RFind(name, '.');
    if 0 < i < |name| - 1 then name[i..] else ""
  }

  function SafeSuffix(filename: string): string {
    if filename == "" then ""
    else
      var suffix := Suffix(Name(ReplaceBackslashes(filename)));
      if suffix in {".", ".."} then "" else suffix
  }

  predicate ValidSegment(value: string) {
    && value != "" && Stripped(value)
    && var path := ReplaceBackslashes(value);
    && path[0] != '/' && |Parts(path)| == 1 && value != "." && value != ".."
  }

  function SegmentPrefix(segment: string): string {
    JOBS_PREFIX + "/" + segment + "/"
  }

  function JobPrefix(id: nat): string {
    SegmentPrefix(Decimal.Print(id))
  }

  function JobInputKey(id: nat, filename: string): string {
    JobPrefix(id) + INPUT_BASENAME + SafeSuffix(filename)
  }

  /** A suffix never contains a separator: it is empty, or one dot followed by something. */
  lemma SuffixStaysInPlace(filename: string)
    ensures '/' !in SafeSuffix(filename) && '\\' !in SafeSuffix(filename)
    ensures SafeSuffix(filename) == "" ||
            (|SafeSuffix(filename)| >= 2 && SafeSuffix(filename)[0] == '.' && '.' !in SafeSuffix(filename)[1..])
  {
    var name := Name(ReplaceBackslashes(filename));
    PartsAvoid(name, '/');
    PartsAvoid(ReplaceBackslashes(filename), '\\');
    PartsAvoid(name, '\\');
    RFindIsLast(Name(name), '.');
  }

  predicate Lacks(s: string, c: char) {
    forall i :: 0 <= i < |s| ==> s[i] != c
  }

  /** No component contains the character. */
  predicate Avoids(parts: seq<string>, c: char) {
    forall i :: 0 <= i < |parts| ==> Lacks(parts[i], c)
  }

  lemma AddingAvoids(front: seq<string>, last: string, c: char)
    requires Lacks(last, c) && Avoids(front, c)
    ensures Avoids(Added(front, last), c)
  {
  }

  lemma {:induction false} RFindIsLast(s: string, c: char)
    ensures forall j :: RFind(s, c) < j < |s| ==> s[j] != c
    decreases |s|
  {
    if |s| != 0 && s[|s| - 1] != c {
      RFindIsLast(s[..|s| - 1], c);
    }
  }

  /** Components contain no separator, and no character the path does not contain. */
  lemma {:induction false} PartsAvoid(path: string, c: char)
    requires c == '/' || Lacks(path, c)
    ensures Avoids(Parts(path), c)
    decreases |path|
  {
    var i := RFind(path, '/');
    if i < 0 {
      RFindIsLast(path, '/');
      AddingAvoids([], path, c);
    } else {
      var front, last := path[..i], path[i + 1..];
      assert Lacks(last, c) by { RFindIsLast(path, '/'); }
      PartsAvoid(front, c);
      AddingAvoids(Parts(front), last, c);
    }
  }

  lemma OnePart(s: string)
    requires '/' !in s && Counts(s)
    ensures Parts(s) == [s] && Name(s) == s
  {
  }

  lemma {:induction false} RFindFinds(a: string, c: char, b: string)
    requires c !in b
    ensures RFind(a + [c] + b, c) == |a|
    decreases |b|
  {
    var s := a + [c] + b;
    if b != "" {
      assert s[..|s| - 1] == a + [c] + b[..|b| - 1] && s[|s| - 1] == b[|b| - 1];
      RFindFinds(a, c, b[..|b| - 1]);
    }
  }

  lemma LastPart(path: string, b: string)
    requires Counts(b) && '/' !in b
    ensures Parts(path + "/" + b) == Parts(path) + [b]
  {
    var s := path + "/" + b;
    RFindFinds(path, '/', b);
    assert s == path + ['/'] + b;
    assert s[|path| + 1..] == b && s[..|path|] == path;
  }

  lemma Unescaped(s: string)
    requires '\\' !in s
    ensures ReplaceBackslashes(s) == s
  {
  }

  /** A name without separators keeps its own extension: what follows its last inner dot. */
  lemma PlainNameKeepsItsExtension(filename: string)
    requires '/' !in filename && '\\' !in filename && (Counts(filename) || filename == "")
    ensures var i := RFind(filename, '.');
      SafeSuffix(filename) == if 0 < i < |filename| - 1 then filename[i..] else ""
  {
    if filename != "" {
      Unescaped(filename);
      OnePart(filename);
    }
  }

  lemma BackslashesBecomeSlashes(a: string, sep: char, b: string)
    requires sep == '/' || sep == '\\'
    ensures ReplaceBackslashes(a + [sep] + b) == ReplaceBackslashes(a) + "/" + ReplaceBackslashes(b)
  {
  }

  /** Only the last name of a path gives the suffix, whichever separator comes before it. */
  lemma OnlyTheNameMatters(directory: string, sep: char, name: string)
    requires sep == '/' || sep == '\\'
    requires Counts(name) && '/' !in name && '\\' !in name
    ensures SafeSuffix(directory + [sep] + name) == SafeSuffix(name)
  {
    BackslashesBecomeSlashes(directory, sep, name);
    Unescaped(name);
    LastPart(ReplaceBackslashes(directory), name);
    OnePart(name);
  }

  lemma DigitsArePlain(s: string)
    requires Decimal.AllDigits(s)
    ensures '/' !in s && '\\' !in s && '.' !in s && Stripped(s)
  {
  }

  lemma PlainSegmentIsValid(s: string)
    requires s != "" && '/' !in s && '\\' !in s && '.' !in s && Stripped(s)
    ensures ValidSegment(s)
  {
  }

  /** A positive integer renders as a valid segment. */
  lemma IdsAreValidSegments(id: nat)
    requires id > 0
    ensures ValidSegment(Decimal.Print(id)) && '/' !in Decimal.Print(id)
  {
    DigitsArePlain(Decimal.Print(id));
    PlainSegmentIsValid(Decimal.Print(id));
  }

  lemma {:induction false} UpToTheSlash(a: string, b: string, rest: string)
    requires '/' !in a && '/' !in b && a + "/" <= b + "/" + rest
    ensures a == b
    decreases |a|
  {
    var q := b + "/" + rest;
    assert (a + "/")[0] == q[0];
    if a != "" && b != "" {
      assert (a + "/")[1..] == a[1..] + "/" && q[1..] == b[1..] + "/" + rest;
      assert a[0] == b[0];
      UpToTheSlash(a[1..], b[1..], rest);
    }
  }

  /** The text after the common beginning decides which prefix covers which key. */
  lemma PrefixOfSegment(a: string, b: string, rest: string)
    ensures SegmentPrefix(a) <= SegmentPrefix(b) + rest <==> a + "/" <= b + "/" + rest
  {
    var p, q := SegmentPrefix(a), SegmentPrefix(b) + rest;
    var n := |JOBS_PREFIX| + 1;
    assert p[n..] == a + "/" && q[n..] == b + "/" + rest;
    assert p == JOBS_PREFIX + "/" + p[n..] && q == JOBS_PREFIX + "/" + q[n..];
  }

  lemma SlashIsAtTheEnd(a: string, b: string, rest: string)
    requires a + "/" <= b + "/" + rest && '/' !in rest
    ensures |a| <= |b| && a == b[..|a|] && (|a| < |b| ==> b[|a|] == '/')
  {
    var p, q := a + "/", b + "/" + rest;
    assert q[|a|] == p[|a|] == '/';
    assert forall i :: |b| < i < |q| ==> q[i] == rest[i - |b| - 1];
    assert forall i :: 0 <= i < |a| ==> a[i] == p[i] == q[i];
  }

  /** The prefix of any segment covers the keys of a segment without separators only when the two are equal. */
  lemma SegmentsSeparate(a: string, b: string, rest: string)
    requires '/' !in b && '/' !in rest
    ensures SegmentPrefix(a) <= SegmentPrefix(b) + rest <==> a == b
  {
    PrefixOfSegment(a, b, rest);
    if a + "/" <= b + "/" + rest {
      SlashIsAtTheEnd(a, b, rest);
    }
  }

  /**
   Another segment that the check accepts covers the keys of `b` exactly when `b` itself begins with such a segment and
   a separator.
   */
  lemma CoveredExactly(b: string, rest: string)
    requires ValidSegment(b) && '/' !in rest
    ensures (exists a :: ValidSegment(a) && a != b && SegmentPrefix(a) <= SegmentPrefix(b) + rest) <==>
            (exists i :: 0 <= i < |b| && b[i] == '/' && ValidSegment(b[..i]))
  {
    if a :| ValidSegment(a) && a != b && SegmentPrefix(a) <= SegmentPrefix(b) + rest {
      PrefixOfSegment(a, b, rest);
      SlashIsAtTheEnd(a, b, rest);
      assert ValidSegment(b[..|a|]) && b[|a|] == '/';
    }
    if i :| 0 <= i < |b| && b[i] == '/' && ValidSegment(b[..i]) {
      assert b[..i] + "/" == b[..i + 1];
      assert (b + "/" + rest)[..i + 1] == b[..i + 1];
      PrefixOfSegment(b[..i], b, rest);
    }
  }

  /** The files of two jobs never share a prefix. */
  lemma PrefixCoversOwnKeysOnly(a: nat, b: nat, filename: string)
    requires a > 0 && b > 0
    ensures JobPrefix(a) <= JobInputKey(b, filename) <==> a == b
  {
    IdsAreValidSegments(b);
    SuffixStaysInPlace(filename);
    SegmentsSeparate(Decimal.Print(a), Decimal.Print(b), INPUT_BASENAME + SafeSuffix(filename));
    assert JobInputKey(b, filename) == JobPrefix(b) + (INPUT_BASENAME + SafeSuffix(filename));
    Decimal.PrintIsInjective(a, b);
  }

  lemma SegmentPrefixesAreDisjoint(a: string, b: string, key: string)
    requires '/' !in a && '/' !in b && SegmentPrefix(a) <= key && SegmentPrefix(b) <= key
    ensures a == b
  {
    var rest := key[|SegmentPrefix(b)|..];
    PrefixOfSegment(a, b, rest);
    UpToTheSlash(a, b, rest);
  }

  /** No key lies under the prefixes of two jobs. */
  lemma PrefixesAreDisjoint(a: nat, b: nat, key: string)
    requires a > 0 && b > 0 && JobPrefix(a) <= key && JobPrefix(b) <= key
    ensures a == b
  {
    DigitsArePlain(Decimal.Print(a));
    DigitsArePlain(Decimal.Print(b));
    SegmentPrefixesAreDisjoint(Decimal.Print(a), Decimal.Print(b), key);
    Decimal.PrintIsInjective(a, b);
  }

  lemma SlashAddsNoPart(a: string)
    ensures Parts(a + "/") == Parts(a)
  {
    var s := a + "/";
    RFindFinds(a, '/', "");
    assert s == a + ['/'] + "";
    assert |s[|a| + 1..]| == 0 && s[..|a|] == a;
  }

  /** The segment check alone does not separate jobs: every plain segment it accepts, it accepts with a final slash. */
  lemma TrailingSlashIsAccepted(a: string)
    requires ValidSegment(a) && '/' !in a && '\\' !in a
    ensures ValidSegment(a + "/") && a != a + "/" && SegmentPrefix(a) <= SegmentPrefix(a + "/")
  {
    var s := a + "/";
    Unescaped(a);
    Unescaped(s);
    OnePart(a);
    SlashAddsNoPart(a);
    assert SegmentPrefix(s) == SegmentPrefix(a) + "/";
  }

  // ---------------------------------------------------------------- what the checks refuse

  lemma AddedBehind(x: seq<string>, y: seq<string>, last: string)
    ensures Added(x + y, last) == x + Added(y, last)
  {
  }

  lemma PartsSplit(front: string, last: string)
    requires '/' !in last
    ensures Parts(front + "/" + last) == Added(Parts(front), last)
  {
    RFindFinds(front, '/', last);
    var s := front + "/" + last;
    assert s == front + ['/'] + last;
    assert s[..|front|] == front && s[|front| + 1..] == last;
  }

  lemma Regrouped(a: string, b: string, i: nat)
    requires i < |b| && b[i] == '/'
    ensures a + "/" + b[..i] + "/" + b[i + 1..] == a + "/" + b
    ensures b[..i] + "/" + b[i + 1..] == b
  {
    assert b == b[..i] + "/" + b[i + 1..];
  }

  /** The components of two paths joined by a separator are those of both. */
  lemma {:induction false} PartsJoin(a: string, b: string)
    ensures Parts(a + "/" + b) == Parts(a) + Parts(b)
    decreases |b|
  {
    var i := RFind(b, '/');
    RFindIsLast(b, '/');
    if i < 0 {
      PartsSplit(a, b);
      AddedBehind(Parts(a), [], b);
      assert Parts(a) + [] == Parts(a);
    } else {
      var front, last := b[..i], b[i + 1..];
      PartsJoin(a, front);
      Regrouped(a, b, i);
      PartsSplit(a + "/" + front, last);
      PartsSplit(front, last);
      AddedBehind(Parts(a), Parts(front), last);
    }
  }

  /** A segment with more than one component is refused, and so are dots, absolute ones and white space at the ends. */
  lemma SegmentsRefused(a: string, b: string)
    requires '\\' !in a && '\\' !in b
    ensures Parts(a) != [] && Parts(b) != [] ==> !ValidSegment(a + "/" + b)
    ensures !ValidSegment("/" + a) && !ValidSegment("") && !ValidSegment(".") && !ValidSegment("..")
    ensures a != "" && (IsSpace(a[0]) || IsSpace(a[|a| - 1])) ==> !ValidSegment(a)
  {
    PartsJoin(a, b);
    Unescaped(a + "/" + b);
    Unescaped("/" + a);
  }
}
