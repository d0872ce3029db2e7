/**
 Cutting labels and texts to a byte budget without breaking UTF-8 (section 3 of
 RFC 3629). A `str` is the sequence of its bytes.
 */
module Labels {

  function Byte(c: char): int {
    c as int
  }

  predicate Continuation(c: char) {
    0x80 <= Byte(c) <= 0xBF
  }

  /** Bytes of a character that starts with `lead`; 0 when none does. */
  function Width(lead: char): (n: nat)
    ensures n <= 4 && (n > 0 ==> !Continuation(lead))
  {
    var b := Byte(lead);
    if b < 0x80 then 1
    else if 0xC2 <= b <= 0xDF then 2
    else if 0xE0 <= b <= 0xEF then 3
    else if 0xF0 <= b <= 0xF4 then 4
    else 0
  }

  /** The restrictions on second bytes: no overlong form, no surrogate, nothing past U+10FFFF. */
  predicate SecondByte(lead: char, second: char) {
    && (Byte(lead) == 0xE0 ==> Byte(second) >= 0xA0)
    && (Byte(lead) == 0xED ==> Byte(second) <= 0x9F)
    && (Byte(lead) == 0xF0 ==> Byte(second) >= 0x90)
    && (Byte(lead) == 0xF4 ==> Byte(second) <= 0x8F)
  }

  /** `s` starts with a well-formed character. */
  predicate StartsWell(s: string) {
    && s != ""
    && 0 < Width(s[0]) <= |s|
    && (forall k :: 1 <= k < Width(s[0]) ==> Continuation(s[k]))
    && (Width(s[0]) >= 2 ==> SecondByte(s[0], s[1]))
  }

  /** Bytes of the well-formed character `s` starts with; 0 when there is none. */
  function CharLen(s: string): (n: nat)
    ensures n <= |s|
    ensures n <= 4 && forall k :: 1 <= k < n ==> Continuation(s[k])
    ensures n > 0 ==> !Continuation(s[0])
  {
    if StartsWell(s) then Width(s[0]) else 0
  }

  /** `s` is a sequence of well-formed characters: what a Rust `str` always is. */
  predicate Utf8(s: string) {
    s == "" || (CharLen(s) > 0 && Utf8(s[CharLen(s)..]))
  }

  /** `str::is_char_boundary`. */
  predicate IsCharBoundary(s: string, i: nat) {
    i == 0 || i == |s| || (i < |s| && !Continuation(s[i]))
  }

  lemma CharLenLocal(s: string, t: string)
    requires CharLen(s) > 0 && |t| >= CharLen(s) && t[..CharLen(s)] == s[..CharLen(s)]
    ensures CharLen(t) == CharLen(s)
  {
    assert forall k :: 0 <= k < CharLen(s) ==> t[k] == t[..CharLen(s)][k] == s[..CharLen(s)][k] == s[k];
  }

  lemma Utf8Cons(s: string, n: nat, rest: string)
    requires 0 < n == CharLen(s) && s[n..] == rest && Utf8(rest)
    ensures Utf8(s)
  {
  }

  /** Cutting valid text at a boundary leaves valid text on both sides. */
  lemma {:induction false} CutAtBoundary(s: string, i: nat)
    requires Utf8(s) && i <= |s| && IsCharBoundary(s, i)
    ensures Utf8(s[..i]) && Utf8(s[i..])
  {
    var n := CharLen(s);
    if i == 0 {
      assert s[0..] == s;
    } else {
      assert i >= n;
      CutAtBoundary(s[n..], i - n);
      assert s[n..][i - n..] == s[i..];
      assert s[..i][..n] == s[..n];
      CharLenLocal(s, s[..i]);
      Utf8Cons(s[..i], n, s[n..][..i - n]);
    }
  }

  lemma {:induction false} ConcatUtf8(a: string, b: string)
    requires Utf8(a) && Utf8(b)
    ensures Utf8(a + b)
  {
    if a == "" {
      assert a + b == b;
    } else {
      var n, s := CharLen(a), a + b;
      ConcatUtf8(a[n..], b);
      assert s[..n] == a[..n];
      CharLenLocal(a, s);
      Utf8Cons(s, n, a[n..] + b);
    }
  }

  lemma Concat3Utf8(a: string, b: string, c: string)
    requires Utf8(a) && Utf8(b) && Utf8(c)
    ensures Utf8(a + b + c)
  {
    ConcatUtf8(a, b);
    ConcatUtf8(a + b, c);
  }

  /** From any position, a boundary is at most three bytes back and three bytes ahead. */
  lemma {:induction false} BoundaryNear(s: string, i: nat)
    requires Utf8(s) && i <= |s|
    ensures exists j: nat :: j <= i <= j + 3 && IsCharBoundary(s, j)
    ensures exists j: nat :: i <= j <= i + 3 && j <= |s| && IsCharBoundary(s, j)
  {
    var n := CharLen(s);
    if i == 0 || i == |s| {
      assert IsCharBoundary(s, i);
    } else if i < n {
      assert IsCharBoundary(s, 0);
      assert IsCharBoundary(s, n) by { assert n < |s| ==> CharLen(s[n..]) > 0 && s[n] == s[n..][0]; }
    } else {
      BoundaryNear(s[n..], i - n);
      var j: nat :| j <= i - n <= j + 3 && IsCharBoundary(s[n..], j);
      BoundaryShift(s, n, j);
      var j': nat :| i - n <= j' <= i - n + 3 && j' <= |s[n..]| && IsCharBoundary(s[n..], j');
      BoundaryShift(s, n, j');
    }
  }

  lemma BoundaryShift(s: string, n: nat, j: nat)
    requires Utf8(s) && n == CharLen(s) && n + j <= |s| && IsCharBoundary(s[n..], j)
    ensures IsCharBoundary(s, n + j)
  {
    if j == 0 && n < |s| {
      assert CharLen(s[n..]) > 0 && s[n..][0] == s[n];
    } else if n + j < |s| {
      assert s[n..][j] == s[n + j];
    }
  }

  /** `kept` is the longest prefix of `s` within the budget that ends on a boundary. */
  ghost predicate LongestPrefix(s: string, budget: nat, kept: string) {
    && |kept| <= budget && kept <= s && IsCharBoundary(s, |kept|)
    && forall j :: |kept| < j <= |s| && j <= budget ==> !IsCharBoundary(s, j)
  }

  /** `kept` is the longest suffix of `s` within the budget that starts on a boundary. */
  ghost predicate LongestSuffix(s: string, budget: nat, kept: string) {
    && |kept| <= budget && |kept| <= |s| && kept == s[|s| - |kept|..]
    && IsCharBoundary(s, |s| - |kept|)
    && forall j :: 0 <= j < |s| - |kept| && |s| - j <= budget ==> !IsCharBoundary(s, j)
  }

  /** A longest prefix is valid text and leaves at most three bytes of budget unused. */
  lemma LongestPrefixWastesLittle(s: string, budget: nat, kept: string)
    requires Utf8(s) && LongestPrefix(s, budget, kept)
    ensures Utf8(kept)
    ensures |s| <= budget ==> kept == s
    ensures |s| > budget ==> budget <= |kept| + 3
  {
    CutAtBoundary(s, |kept|);
    assert kept == s[..|kept|];
    if |s| <= budget {
      assert IsCharBoundary(s, |s|);
    } else {
      BoundaryNear(s, budget);
      PrefixBudget(s, budget, kept);
    }
  }

  lemma PrefixBudget(s: string, budget: nat, kept: string)
    requires LongestPrefix(s, budget, kept) && budget < |s|
    requires exists j: nat :: j <= budget <= j + 3 && IsCharBoundary(s, j)
    ensures budget <= |kept| + 3
  {
  }

  lemma SuffixBudget(s: string, budget: nat, kept: string)
    requires LongestSuffix(s, budget, kept) && budget < |s|
    requires exists j: nat :: |s| - budget <= j <= |s| - budget + 3 && j <= |s| && IsCharBoundary(s, j)
    ensures budget <= |kept| + 3
  {
  }

  lemma LongestSuffixWastesLittle(s: string, budget: nat, kept: string)
    requires Utf8(s) && LongestSuffix(s, budget, kept)
    ensures Utf8(kept)
    ensures |s| <= budget ==> kept == s
    ensures |s| > budget ==> budget <= |kept| + 3
  {
    CutAtBoundary(s, |s| - |kept|);
    if |s| <= budget {
      assert IsCharBoundary(s, 0);
    } else {
      BoundaryNear(s, |s| - budget);
      SuffixBudget(s, budget, kept);
    }
  }

  /** `safe_truncate_at_char_boundary`. */
  method SafeTruncateAtCharBoundary(s: string, maxBytes: nat) returns (kept: string)
    ensures LongestPrefix(s, maxBytes, kept)
  {
    if |s| <= maxBytes {
      return s;
    }
    var end := maxBytes;
    while end > 0 && !IsCharBoundary(s, end)
      invariant 0 <= end <= maxBytes
      invariant forall j :: end < j <= maxBytes ==> !IsCharBoundary(s, j)
    {
      end := end - 1;
    }
    return s[..end];
  }

  method KeepTailBytes(s: string, budget: nat) returns (kept: string)
    ensures LongestSuffix(s, budget, kept)
  {
    if budget == 0 || s == "" {
      return "";
    }
    if |s| <= budget {
      return s;
    }
    var start := |s| - budget;
    while start < |s| && !IsCharBoundary(s, start)
      invariant |s| - budget <= start <= |s|
      invariant forall j :: |s| - budget <= j < start ==> !IsCharBoundary(s, j)
    {
      start := start + 1;
    }
    return s[start..];
  }

  method KeepHeadBytes(s: string, budget: nat) returns (kept: string)
    ensures LongestPrefix(s, budget, kept)
  {
    if budget == 0 || s == "" {
      return "";
    }
    kept := SafeTruncateAtCharBoundary(s, budget);
  }

  const MAX_LABEL_BYTES: nat := 512

  /** U+2026 and a slash; U+2026 alone. */
  const HEAD_CLIPPED_MARKER := "\U{E2}\U{80}\U{A6}/"
  const TAIL_CLIPPED_MARKER := "\U{E2}\U{80}\U{A6}"

  datatype TruncateMode = KeepTail | KeepHead

  function Marker(mode: TruncateMode): string {
    match mode
    case KeepTail => HEAD_CLIPPED_MARKER
    case KeepHead => TAIL_CLIPPED_MARKER
  }

  lemma MarkersAreUtf8(mode: TruncateMode)
    ensures Utf8(Marker(mode)) && |Marker(mode)| == if mode.KeepTail? then 4 else 3
  {
    assert CharLen(HEAD_CLIPPED_MARKER) == 3 && HEAD_CLIPPED_MARKER[3..] == "/";
    assert Utf8("/") by { assert "/"[1..] == ""; }
    assert CharLen(TAIL_CLIPPED_MARKER) == 3 && TAIL_CLIPPED_MARKER[3..] == "";
  }

  /** What is kept of a value that does not fit, and where the marker goes. */
  ghost predicate Clipped(prefix: string, value: string, mode: TruncateMode, text: string, kept: string) {
    var marker := Marker(mode);
    && |prefix| + |marker| < MAX_LABEL_BYTES
    && var budget := MAX_LABEL_BYTES - |prefix| - |marker|;
    && |text| <= MAX_LABEL_BYTES <= |text| + 3
    && if mode.KeepTail? then text == prefix + marker + kept && LongestSuffix(value, budget, kept)
       else text == prefix + kept + marker && LongestPrefix(value, budget, kept)
  }

  /**
   `truncate_label`: whatever fits is returned as it is; otherwise as much of the
   value as the budget holds is kept, and the clipped edge is marked.
   */
  method TruncateLabel(prefix: string, value: string, mode: TruncateMode) returns (text: string)
    requires Utf8(prefix) && Utf8(value)
    ensures Utf8(text) && |text| <= MAX_LABEL_BYTES
    ensures |prefix| + |value| <= MAX_LABEL_BYTES ==> text == prefix + value
    ensures text == "" <==>
      || (prefix == "" && value == "")
      || (|prefix| + |value| > MAX_LABEL_BYTES && |prefix| + |Marker(mode)| >= MAX_LABEL_BYTES)
    ensures |prefix| + |value| > MAX_LABEL_BYTES && |prefix| + |Marker(mode)| < MAX_LABEL_BYTES ==>
      exists kept :: Clipped(prefix, value, mode, text, kept)
  {
    if |prefix| + |value| <= MAX_LABEL_BYTES {
      ConcatUtf8(prefix, value);
      text := prefix;
      text := text + value;
      return;
    }
    var marker := Marker(mode);
    var overhead := |prefix| + |marker|;
    if overhead >= MAX_LABEL_BYTES {
      return "";
    }
    var valueBudget := MAX_LABEL_BYTES - overhead;
    MarkersAreUtf8(mode);
    text := prefix;
    match mode {
      case KeepTail =>
        var kept := KeepTailBytes(value, valueBudget);
        LongestSuffixWastesLittle(value, valueBudget, kept);
        Concat3Utf8(prefix, marker, kept);
        text := text + marker;
        text := text + kept;
        assert Clipped(prefix, value, mode, text, kept);
      case KeepHead =>
        var kept := KeepHeadBytes(value, valueBudget);
        LongestPrefixWastesLittle(value, valueBudget, kept);
        Concat3Utf8(prefix, kept, marker);
        text := text + kept;
        text := text + marker;
        assert Clipped(prefix, value, mode, text, kept);
    }
  }
}
