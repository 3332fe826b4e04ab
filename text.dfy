/** String helpers used by the templates: JavaScript's `Array.prototype.join`,
    `String.prototype.split("\n")`, ASCII `toLowerCase`, and prefix/substring
    predicates used to state facts about generated text. */
module Text {

  /** `parts.join(sep)`: the parts with `sep` between neighbours; `[]` joins to "". */
  function Join(parts: seq<string>, sep: string): string
  {
    if |parts| == 0 then ""
    else if |parts| == 1 then parts[0]
    else parts[0] + sep + Join(parts[1..], sep)
  }

  /** Index of the first `c` in `s`, or `|s|` when there is none. */
  function IndexOf(s: string, c: char): (k: nat)
    ensures k <= |s|
    ensures forall j :: 0 <= j < k ==> s[j] != c
    ensures k < |s| ==> s[k] == c
  {
    if |s| == 0 then 0
    else if s[0] == c then 0
    else 1 + IndexOf(s[1..], c)
  }

  /** `s.split("\n")`: never empty; "" splits to [""]. */
  function Lines(s: string): (r: seq<string>)
    ensures |r| >= 1
    decreases |s|
  {
    var k := IndexOf(s, '\n');
    if k == |s| then [s] else [s[..k]] + Lines(s[k + 1..])
  }

  predicate StartsWith(s: string, prefix: string)
  {
    |prefix| <= |s| && s[..|prefix|] == prefix
  }

  predicate EndsWith(s: string, suffix: string)
  {
    |suffix| <= |s| && s[|s| - |suffix|..] == suffix
  }

  /** `s.includes(sub)`. */
  predicate Contains(s: string, sub: string)
  {
    exists i :: 0 <= i <= |s| && StartsWith(s[i..], sub)
  }

  /** ASCII `toLowerCase` of one character. */
  function LowerChar(c: char): (d: char)
    ensures 'A' <= c <= 'Z' ==> d as int == c as int + 32
    ensures !('A' <= c <= 'Z') ==> d == c
  {
    if 'A' <= c <= 'Z' then (c as int + 32) as char else c
  }

  /** ASCII `toLowerCase`. */
  function ToLower(s: string): (r: string)
  {
    if |s| == 0 then "" else [LowerChar(s[0])] + ToLower(s[1..])
  }

  predicate IsWordChar(c: char)
  {
    ('a' <= c <= 'z') || ('A' <= c <= 'Z') || ('0' <= c <= '9') || c == '_'
  }

  /** A schema identifier: ASCII letters, digits and underscores only. */
  predicate IsIdentifier(s: string)
  {
    forall i :: 0 <= i < |s| ==> IsWordChar(s[i])
  }

  // ---------------------------------------------------------------------
  // Lemmas

  /** Lowercasing keeps the length, lowercases each upper-case letter and
      leaves every other character alone. */
  lemma {:induction false} ToLowerAt(s: string)
    ensures |ToLower(s)| == |s|
    ensures forall i :: 0 <= i < |s| ==> ToLower(s)[i] == LowerChar(s[i])
  {
    if |s| > 0 {
      ToLowerAt(s[1..]);
      forall i | 0 <= i < |s| ensures ToLower(s)[i] == LowerChar(s[i]) {
        if i > 0 {
          assert ToLower(s)[i] == ToLower(s[1..])[i - 1];
        }
      }
    }
  }

  /** Lowercasing twice is lowercasing once. */
  lemma ToLowerIdempotent(s: string)
    ensures ToLower(ToLower(s)) == ToLower(s)
  {
    ToLowerAt(s);
    ToLowerAt(ToLower(s));
  }

  /** Lowercasing an identifier gives an identifier without upper-case letters. */
  lemma ToLowerIdentifier(s: string)
    requires IsIdentifier(s)
    ensures IsIdentifier(ToLower(s))
    ensures forall i :: 0 <= i < |ToLower(s)| ==> !('A' <= ToLower(s)[i] <= 'Z')
  {
    ToLowerAt(s);
  }

  /** A string without a newline splits to itself. */
  lemma LinesOfLine(s: string)
    requires '\n' !in s
    ensures Lines(s) == [s]
  {
  }

  /** Splitting at an inserted newline splits each side separately. */
  lemma {:induction false} LinesAppend(a: string, b: string)
    ensures Lines(a + "\n" + b) == Lines(a) + Lines(b)
    decreases |a|
  {
    var k := IndexOf(a, '\n');
    if k == |a| {
      SplitAtFirstNewline(a, b);
      LinesOfLine(a);
    } else {
      LinesAppend(a[k + 1..], b);
      LinesAppendStep(a, b, k);
    }
  }

  /** The inductive step of `LinesAppend`: cut `a` at its first newline. */
  lemma LinesAppendStep(a: string, b: string, k: nat)
    requires k == IndexOf(a, '\n') && k < |a|
    requires Lines(a[k + 1..] + "\n" + b) == Lines(a[k + 1..]) + Lines(b)
    ensures Lines(a + "\n" + b) == Lines(a) + Lines(b)
  {
    SplitBeforeFirstNewline(a, b, k);
    ConsAppend(a[..k], Lines(a[k + 1..]), Lines(b));
  }

  lemma ConsAppend(x: string, r: seq<string>, t: seq<string>)
    ensures [x] + (r + t) == [x] + r + t
  {
  }

  /** The first newline of `a + "\n" + b` is the inserted one when `a` has none. */
  lemma SplitAtFirstNewline(a: string, b: string)
    requires IndexOf(a, '\n') == |a|
    ensures Lines(a + "\n" + b) == [a] + Lines(b)
  {
    var s := a + "\n" + b;
    assert s[|a|] == '\n';
    IndexOfPrefix(s, a, '\n');
    assert s[..|a|] == a;
    assert s[|a| + 1..] == b;
  }

  /** Otherwise it is the first newline of `a`. */
  lemma SplitBeforeFirstNewline(a: string, b: string, k: nat)
    requires k == IndexOf(a, '\n') && k < |a|
    ensures Lines(a + "\n" + b) == [a[..k]] + Lines(a[k + 1..] + "\n" + b)
    ensures Lines(a) == [a[..k]] + Lines(a[k + 1..])
  {
    var s := a + "\n" + b;
    IndexOfPrefix(s, a, '\n');
    SliceAroundNewline(a, b, k);
    LinesAtNewline(s, k);
    LinesAtNewline(a, k);
  }

  lemma SliceAroundNewline(a: string, b: string, k: nat)
    requires k < |a|
    ensures (a + "\n" + b)[..k] == a[..k] && (a + "\n" + b)[k + 1..] == a[k + 1..] + "\n" + b
  {
  }

  /** `Lines` cuts at the first newline. */
  lemma LinesAtNewline(s: string, k: nat)
    requires k == IndexOf(s, '\n') && k < |s|
    ensures Lines(s) == [s[..k]] + Lines(s[k + 1..])
  {
  }

  /** `IndexOf` agrees on a string and any extension of its prefix that
      already holds the character (or whose next character is it). */
  lemma IndexOfPrefix(s: string, a: string, c: char)
    requires StartsWith(s, a)
    requires IndexOf(a, c) < |a| || (|a| < |s| && s[|a|] == c)
    ensures IndexOf(s, c) == IndexOf(a, c)
  {
    assert forall j :: 0 <= j < |a| ==> s[j] == a[j];
  }

  /** Splitting a newline-joined list of non-empty list gives back the
      splits of the parts, concatenated. */
  lemma {:induction false} LinesOfJoin(parts: seq<string>)
    requires |parts| >= 1
    ensures Lines(Join(parts, "\n")) == ConcatLines(parts)
  {
    if |parts| > 1 {
      LinesOfJoin(parts[1..]);
      LinesAppend(parts[0], Join(parts[1..], "\n"));
    }
  }

  /** The lines of each part, one after the other. */
  function ConcatLines(parts: seq<string>): seq<string>
  {
    if |parts| == 0 then [] else Lines(parts[0]) + ConcatLines(parts[1..])
  }

  /** `split` undoes `join` when no part holds a newline. */
  lemma {:induction false} LinesJoinRoundTrip(parts: seq<string>)
    requires |parts| >= 1
    requires forall p :: p in parts ==> '\n' !in p
    ensures Lines(Join(parts, "\n")) == parts
  {
    LinesOfLine(parts[0]);
    if |parts| > 1 {
      LinesJoinRoundTrip(parts[1..]);
      LinesAppend(parts[0], Join(parts[1..], "\n"));
      assert [parts[0]] + parts[1..] == parts;
    }
  }

  /** Joining two non-empty lists joins their joins. */
  lemma {:induction false} JoinAppend(a: seq<string>, b: seq<string>, sep: string)
    requires |a| >= 1 && |b| >= 1
    ensures Join(a + b, sep) == Join(a, sep) + sep + Join(b, sep)
  {
    if |a| == 1 {
      assert (a + b)[1..] == b;
    } else {
      assert (a + b)[1..] == a[1..] + b;
      JoinAppend(a[1..], b, sep);
    }
  }

  /** The first `c` in `a + [c] + b` is the one after `a` when `a` has none. */
  lemma IndexOfAfter(a: string, c: char, b: string)
    requires c !in a
    ensures IndexOf(a + [c] + b, c) == |a|
  {
    var s := a + [c] + b;
    assert s[|a|] == c;
    assert forall j :: 0 <= j < |a| ==> s[j] == a[j];
  }

  /** Text placed between two others is contained in the result. */
  lemma ContainsMiddle(a: string, sub: string, b: string)
    ensures Contains(a + sub + b, sub)
  {
    var s := a + sub + b;
    assert s[|a|..][..|sub|] == sub;
  }

  /** Dropping part of the first of two strings. */
  lemma DropAppend(a: string, b: string, k: nat)
    requires k <= |a|
    ensures (a + b)[k..] == a[k..] + b
  {
  }
}
