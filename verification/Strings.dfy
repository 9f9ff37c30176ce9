/** String helpers of Go's standard library that the services rely on. A string is a sequence of
    Unicode scalar values; code-point order on such sequences is the byte order of their UTF-8 forms. */
module Strings {

  // ---------- white space ----------

  // unicode.IsSpace
  predicate IsSpace(c: char) {
    var n := c as int;
    || 9 <= n <= 13 || n == 32 || n == 0x85 || n == 0xA0 || n == 0x1680
    || 0x2000 <= n <= 0x200A || n == 0x2028 || n == 0x2029 || n == 0x202F || n == 0x205F || n == 0x3000
  }

  predicate Trimmed(s: string) {
    s == "" || (!IsSpace(s[0]) && !IsSpace(s[|s| - 1]))
  }

  function TrimLeft(s: string): (r: string)
    ensures r == "" || !IsSpace(r[0])
    ensures s != "" && !IsSpace(s[|s| - 1]) ==> r != "" && r[|r| - 1] == s[|s| - 1]
  {
    if s != "" && IsSpace(s[0]) then TrimLeft(s[1..]) else s
  }

  function TrimRight(s: string): (r: string)
    ensures r <= s
    ensures r == "" || !IsSpace(r[|r| - 1])
  {
    if s != "" && IsSpace(s[|s| - 1]) then TrimRight(s[..|s| - 1]) else s
  }

  // strings.TrimSpace
  function TrimSpace(s: string): (r: string)
    ensures Trimmed(r)
    ensures Trimmed(s) ==> r == s
  {
    TrimLeft(TrimRight(s))
  }

  ghost predicate AllSpace(s: string) {
    forall i | 0 <= i < |s| :: IsSpace(s[i])
  }

  // What is cut off is the white space around the text, and nothing else.
  lemma TrimSpaceIs(before: string, text: string, after: string)
    requires AllSpace(before) && Trimmed(text) && AllSpace(after)
    ensures TrimSpace(before + text + after) == text
  {
    hide TrimLeft;
    TrimRightIs(before + text, after);
    if text == "" {
      assert before + text == before == "" + before;
      TrimRightIs("", before);
      TrimLeftIs("", "");
    } else {
      var kept := before + text;
      assert kept[|kept| - 1] == text[|text| - 1];
      TrimLeftIs(before, text);
    }
  }

  lemma {:induction false} TrimRightIs(text: string, after: string)
    requires AllSpace(after)
    ensures TrimRight(text + after) == TrimRight(text)
  {
    var s := text + after;
    if after == "" {
      assert s == text;
    } else {
      assert s[..|s| - 1] == text + after[..|after| - 1];
      TrimRightIs(text, after[..|after| - 1]);
    }
  }

  lemma {:induction false} TrimLeftIs(before: string, text: string)
    requires AllSpace(before) && Trimmed(text)
    ensures TrimLeft(before + text) == text
  {
    if before == "" {
      assert before + text == text;
    } else {
      assert (before + text)[1..] == before[1..] + text;
      TrimLeftIs(before[1..], text);
    }
  }

  // strings.ToUpper on the letters of ASCII
  function ToUpper(s: string): (r: string)
    ensures |r| == |s|
  {
    seq(|s|, i requires 0 <= i < |s| => if 'a' <= s[i] <= 'z' then (s[i] as int - 32) as char else s[i])
  }

  // ---------- order ----------

  predicate Less(a: string, b: string) {
    b != "" && (a == "" || a[0] < b[0] || (a[0] == b[0] && Less(a[1..], b[1..])))
  }

  predicate AtMost(a: string, b: string) {
    a == b || Less(a, b)
  }

  // strings.Compare
  function Compare(a: string, b: string): int {
    if a == b then 0 else if Less(a, b) then -1 else 1
  }

  ghost predicate DifferAt(a: string, b: string, i: nat) {
    && i <= |a| && i < |b| && a[..i] == b[..i]
    && (i == |a| || a[i] < b[i])
  }

  // The first character that differs decides, and a proper prefix comes first.
  lemma {:induction false} LessIff(a: string, b: string)
    ensures Less(a, b) <==> exists i :: DifferAt(a, b, i)
  {
    if a == "" || b == "" || a[0] != b[0] {
      assert forall i | i > 0 :: DifferAt(a, b, i) ==> a[0] == a[..i][0] == b[..i][0] == b[0];
      assert Less(a, b) <==> DifferAt(a, b, 0);
    } else {
      LessIff(a[1..], b[1..]);
      forall i | i > 0 ensures DifferAt(a, b, i) <==> DifferAt(a[1..], b[1..], i - 1) {
        if i <= |a| && i <= |b| {
          assert a[..i] == [a[0]] + a[1..][..i - 1] && b[..i] == [b[0]] + b[1..][..i - 1];
        }
      }
      forall i: nat | DifferAt(a[1..], b[1..], i) ensures DifferAt(a, b, i + 1) {
        assert DifferAt(a, b, i + 1) <==> DifferAt(a[1..], b[1..], i + 1 - 1);
      }
    }
  }

  lemma {:induction false} LessIrreflexive(a: string)
    ensures !Less(a, a)
  {
    if a != "" {
      LessIrreflexive(a[1..]);
    }
  }

  lemma {:induction false} LessTransitive(a: string, b: string, c: string)
    requires Less(a, b) && Less(b, c)
    ensures Less(a, c)
  {
    if a != "" && a[0] == b[0] == c[0] {
      LessTransitive(a[1..], b[1..], c[1..]);
    }
  }

  lemma {:induction false} LessConnected(a: string, b: string)
    ensures a == b || Less(a, b) || Less(b, a)
  {
    if a != "" && b != "" && a[0] == b[0] {
      LessConnected(a[1..], b[1..]);
      assert a == [a[0]] + a[1..] && b == [b[0]] + b[1..];
    }
  }

  lemma LessAsymmetric(a: string, b: string)
    requires Less(a, b)
    ensures !Less(b, a) && a != b
  {
    LessIrreflexive(a);
    if Less(b, a) {
      LessTransitive(a, b, a);
    }
  }

  // a string comes before its proper extensions
  lemma {:induction false} PrefixAtMost(p: string, s: string)
    requires p <= s
    ensures AtMost(p, s)
  {
    if p != "" {
      PrefixAtMost(p[1..], s[1..]);
      assert p == [p[0]] + p[1..] && s == [s[0]] + s[1..];
    }
  }

  // Strings that share a prefix are contiguous in the order.
  lemma {:induction false} PrefixContiguous(p: string, a: string, b: string, c: string)
    requires p <= a && p <= c
    requires AtMost(a, b) && AtMost(b, c)
    ensures p <= b
  {
    if p != "" && b != a && b != c {
      assert a[0] == c[0] == p[0] == b[0];
      PrefixContiguous(p[1..], a[1..], b[1..], c[1..]);
      assert b == [b[0]] + b[1..] && p == [p[0]] + p[1..];
    }
  }

  // A string without the prefix is on one side of all strings with it.
  lemma {:induction false} PrefixSeparates(p: string, a: string, b: string)
    requires p <= a && !(p <= b) && Less(a, b)
    ensures forall c | p <= c :: Less(c, b)
  {
    forall c | p <= c ensures Less(c, b) {
      LessConnected(c, b);
      if Less(b, c) {
        PrefixContiguous(p, a, b, c);
      }
    }
  }

  // ---------- search ----------

  // Every string of the form p + "|" + s with a bar-free p splits in one way only.
  lemma {:induction false} BarSplit(p: string, s: string, p': string, s': string)
    requires '|' !in p && '|' !in p'
    requires p + "|" + s == p' + "|" + s'
    ensures p == p' && s == s'
  {
    var l, r := p + "|" + s, p' + "|" + s';
    assert l[|p|] == '|' && r[|p'|] == '|';
    assert forall i | 0 <= i < |p| :: l[i] == p[i];
    assert forall i | 0 <= i < |p'| :: r[i] == p'[i];
    assert |p| == |p'|;
    assert p == l[..|p|] && p' == r[..|p|];
    assert s == l[|p| + 1..] && s' == r[|p| + 1..];
  }
}
