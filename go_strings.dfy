/**
 * The two functions of Go's strings package that the app-group handlers call:
 * strings.ToLower (for storage keys) and strings.Split (for the apps list).
 */
module GoStrings {

  predicate IsUpper(c: char) { 'A' <= c <= 'Z' }

  predicate IsLetter(c: char) { 'A' <= c <= 'Z' || 'a' <= c <= 'z' }

  /** unicode.ToLower restricted to ASCII: upper-case letters move down to lower case. */
  function LowerChar(c: char): char
  {
    if IsUpper(c) then (c as int + 32) as char else c
  }

  /** strings.ToLower: every character lowered, nothing added or removed. */
  function ToLower(s: string): (r: string)
    ensures |r| == |s|
    ensures forall i :: 0 <= i < |s| ==> r[i] == LowerChar(s[i])
  {
    if s == [] then [] else [LowerChar(s[0])] + ToLower(s[1..])
  }

  /** Two characters are the same letter in either case, or the same character. */
  predicate CaseVariants(x: char, y: char)
  {
    x == y || (IsLetter(x) && IsLetter(y) && (x as int - y as int == 32 || y as int - x as int == 32))
  }

  /** Two strings differ at most in the case of their letters. */
  predicate SameIgnoringCase(a: string, b: string)
  {
    |a| == |b| && forall i :: 0 <= i < |a| ==> CaseVariants(a[i], b[i])
  }

  lemma LowerCharEqual(x: char, y: char)
    ensures LowerChar(x) == LowerChar(y) <==> CaseVariants(x, y)
  {
  }

  /** Lowering is idempotent, so lowering a name twice gives the same key as lowering it once. */
  lemma {:induction false} ToLowerIdempotent(s: string)
    ensures ToLower(ToLower(s)) == ToLower(s)
  {
    var t := ToLower(s);
    assert forall i :: 0 <= i < |t| ==> ToLower(t)[i] == t[i];
  }

  /** Two strings lower to the same string exactly when they differ only in case. */
  lemma {:induction false} ToLowerEqual(a: string, b: string)
    ensures ToLower(a) == ToLower(b) <==> SameIgnoringCase(a, b)
  {
    if ToLower(a) == ToLower(b) {
      forall i | 0 <= i < |a| ensures CaseVariants(a[i], b[i]) {
        assert ToLower(a)[i] == ToLower(b)[i];
        LowerCharEqual(a[i], b[i]);
      }
    }
    if SameIgnoringCase(a, b) {
      forall i | 0 <= i < |a| ensures ToLower(a)[i] == ToLower(b)[i] {
        LowerCharEqual(a[i], b[i]);
      }
    }
  }

  /** strings.Split(s, string(sep)): the pieces between separators; the empty string gives one empty piece. */
  function Split(s: string, sep: char): (parts: seq<string>)
    ensures |parts| >= 1
    ensures forall i :: 0 <= i < |parts| ==> sep !in parts[i]
    decreases |s|
  {
    if s == [] then [""]
    else
      var rest := Split(s[1..], sep);
      if s[0] == sep then [""] + rest
      else [[s[0]] + rest[0]] + rest[1..]
  }

  /** strings.Join(parts, string(sep)). */
  function Join(parts: seq<string>, sep: char): string
    requires |parts| >= 1
    decreases |parts|
  {
    if |parts| == 1 then parts[0] else parts[0] + [sep] + Join(parts[1..], sep)
  }

  /** Joining the pieces of a split gives back the split string. */
  lemma {:induction false} JoinSplit(s: string, sep: char)
    ensures Join(Split(s, sep), sep) == s
    decreases |s|
  {
    if s != [] {
      var rest := Split(s[1..], sep);
      JoinSplit(s[1..], sep);
      if s[0] == sep {
        assert ([""] + rest)[1..] == rest;
      } else if |rest| > 1 {
        var parts := [[s[0]] + rest[0]] + rest[1..];
        assert parts[1..] == rest[1..];
        assert s == [s[0]] + s[1..];
      } else {
        assert s == [s[0]] + s[1..];
      }
    }
  }

  /** Splitting a string that begins with a separator-free prefix keeps that prefix in the first piece. */
  lemma {:induction false} SplitPrefix(p: string, u: string, sep: char)
    requires sep !in p
    ensures Split(p + u, sep) == [p + Split(u, sep)[0]] + Split(u, sep)[1..]
    decreases |p|
  {
    if p == [] {
      var parts := Split(u, sep);
      assert p + u == u;
      assert p + parts[0] == parts[0];
      assert [parts[0]] + parts[1..] == parts;
    } else {
      SplitPrefix(p[1..], u, sep);
      assert (p + u)[1..] == p[1..] + u;
      assert [p[0]] + (p[1..] + Split(u, sep)[0]) == p + Split(u, sep)[0];
    }
  }

  /** Splitting a join of separator-free pieces gives back the pieces. */
  lemma {:induction false} SplitJoin(parts: seq<string>, sep: char)
    requires |parts| >= 1
    requires forall i :: 0 <= i < |parts| ==> sep !in parts[i]
    ensures Split(Join(parts, sep), sep) == parts
    decreases |parts|
  {
    if |parts| == 1 {
      SplitPrefix(parts[0], "", sep);
      assert parts[0] + "" == parts[0];
    } else {
      var tail := Join(parts[1..], sep);
      SplitJoin(parts[1..], sep);
      assert Split([sep] + tail, sep) == [""] + parts[1..];
      SplitPrefix(parts[0], [sep] + tail, sep);
      assert parts[0] + [sep] + tail == parts[0] + ([sep] + tail);
      assert parts[0] + "" == parts[0];
      assert [parts[0]] + parts[1..] == parts;
    }
  }
}
