/**
  UTF-8 byte windows.  One implementation backs up from a byte limit to the start of a character, the
  other decodes forward through a stream.  Both return the longest run of whole characters that fits, so
  they agree, and following the next offset pages through the whole text.
 */
module Utf8Window {
  import opened Prelude

  type byte = b: int | 0 <= b < 256

  predicate Tail(b: byte) {
    0x80 <= b <= 0xBF
  }

  /** Not a continuation byte. */
  predicate RuneStart(b: byte) {
    !Tail(b)
  }

  /** The width of the character that `s` begins with, by section 4 of RFC 3629; 0 when it begins with none. */
  function Width(s: seq<byte>): (n: nat)
    ensures n <= 4 && n <= |s|
  {
    if |s| >= 1 && s[0] <= 0x7F then 1
    else if |s| >= 2 && 0xC2 <= s[0] <= 0xDF && Tail(s[1]) then 2
    else if |s| >= 3 && Tail(s[2])
      && ( || (s[0] == 0xE0 && 0xA0 <= s[1] <= 0xBF)
           || (0xE1 <= s[0] <= 0xEC && Tail(s[1]))
           || (s[0] == 0xED && 0x80 <= s[1] <= 0x9F)
           || (0xEE <= s[0] <= 0xEF && Tail(s[1]))) then 3
    else if |s| >= 4 && Tail(s[2]) && Tail(s[3])
      && ( || (s[0] == 0xF0 && 0x90 <= s[1] <= 0xBF)
           || (0xF1 <= s[0] <= 0xF3 && Tail(s[1]))
           || (s[0] == 0xF4 && 0x80 <= s[1] <= 0x8F)) then 4
    else 0
  }

  predicate Valid(s: seq<byte>)
    decreases |s|
  {
    s == [] || (Width(s) > 0 && Valid(s[Width(s)..]))
  }

  /** Position `k` lies between two characters, or at an end of the text. */
  predicate Boundary(s: seq<byte>, k: nat)
    decreases |s|
  {
    k == 0 || (0 < Width(s) <= k && Boundary(s[Width(s)..], k - Width(s)))
  }

  datatype Window = Refused | Page(content: seq<byte>, offset: nat, bytes: nat, more: bool, next: nat)

  // ----- characters -------------------------------------------------------------------------------------

  lemma {:induction false} BoundaryInside(s: seq<byte>, k: nat)
    requires Boundary(s, k)
    ensures k <= |s| && (Valid(s) <==> Valid(s[..k]) && Valid(s[k..])) && Valid(s[..k])
    decreases |s|
  {
    hide Width;
    if k > 0 {
      var n := Width(s);
      BoundaryInside(s[n..], k - n);
      assert s[n..][..k - n] == s[..k][n..] && s[n..][k - n..] == s[k..];
      WidthPrefix(s[..k], s);
    }
  }

  lemma BoundaryWithin(s: seq<byte>, k: nat)
    requires k > |s|
    ensures !Boundary(s, k)
  {
    if Boundary(s, k) {
      BoundaryInside(s, k);
    }
  }

  /** Only the first character matters. */
  lemma WidthPrefix(s: seq<byte>, t: seq<byte>)
    requires s <= t && (|s| >= 4 || |s| >= Width(t))
    ensures Width(s) == Width(t)
  {
  }

  /** From a boundary on, the boundaries are those of the rest of the text. */
  lemma {:induction false} BoundaryShift(s: seq<byte>, a: nat, b: nat)
    requires Boundary(s, a)
    ensures a <= |s| && (Boundary(s, a + b) <==> Boundary(s[a..], b))
    decreases |s|
  {
    hide Width;
    if a > 0 {
      var n := Width(s);
      assert n <= a && Boundary(s[n..], a - n);
      BoundaryShift(s[n..], a - n, b);
      assert s[n..][a - n..] == s[a..] && a - n + b == a + b - n;
      assert Boundary(s, a + b) <==> Boundary(s[n..], a + b - n);
    } else {
      assert s[0..] == s;
    }
  }

  /** In a valid text the boundaries are exactly the bytes that are not continuation bytes, and the end. */
  lemma {:induction false} BoundaryIsRuneStart(s: seq<byte>, k: nat)
    requires Valid(s) && k <= |s|
    ensures Boundary(s, k) <==> k == |s| || RuneStart(s[k])
    decreases |s|
  {
    if s != [] && k >= Width(s) {
      BoundaryIsRuneStart(s[Width(s)..], k - Width(s));
    }
  }

  // ----- what a character is -------------------------------------------------------------------------------

  /** The Unicode scalar values: code points that are no surrogates. */
  predicate Scalar(c: int) {
    0 <= c < 0xD800 || 0xE000 <= c <= 0x10FFFF
  }

  /** The encoding of a scalar value, by the table in section 3 of RFC 3629. */
  function Encode(c: int): (s: seq<byte>)
    requires Scalar(c)
    ensures 1 <= |s| <= 4
  {
    if c <= 0x7F then [c]
    else if c <= 0x7FF then [0xC0 + c / 64, 0x80 + c % 64]
    else if c <= 0xFFFF then [0xE0 + c / 4096, 0x80 + c / 64 % 64, 0x80 + c % 64]
    else [0xF0 + c / 262144, 0x80 + c / 4096 % 64, 0x80 + c / 64 % 64, 0x80 + c % 64]
  }

  /** What a byte carries beyond its marker bits. */
  function Payload(b: byte, marker: int): int {
    b as int - marker
  }

  /** The scalar value that the first character of `s` encodes. */
  function Decode(s: seq<byte>): int
    requires Width(s) > 0
  {
    var n := Width(s);
    if n == 1 then s[0]
    else if n == 2 then Payload(s[0], 0xC0) * 64 + Payload(s[1], 0x80)
    else if n == 3 then (Payload(s[0], 0xE0) * 64 + Payload(s[1], 0x80)) * 64 + Payload(s[2], 0x80)
    else ((Payload(s[0], 0xF0) * 64 + Payload(s[1], 0x80)) * 64 + Payload(s[2], 0x80)) * 64 + Payload(s[3], 0x80)
  }

  lemma EncodingHasWidth(c: int, s: seq<byte>)
    requires Scalar(c) && Encode(c) <= s
    ensures Width(s) == |Encode(c)|
  {
    var e := Encode(c);
    assert forall i :: 0 <= i < |e| ==> s[i] == e[i];
    if c > 0xFFFF {
      FourBytes(c);
      hide Encode;
    } else if c > 0x7FF {
      ThreeBytes(c);
      hide Encode;
    }
  }

  lemma ThreeBytes(c: int)
    requires 0x7FF < c <= 0xFFFF && Scalar(c)
    ensures var e := Encode(c);
      && |e| == 3 && 0xE0 <= e[0] <= 0xEF && Tail(e[1]) && Tail(e[2])
      && (e[0] == 0xE0 ==> e[1] >= 0xA0) && (e[0] == 0xED ==> e[1] <= 0x9F)
  {
    var a, b, d := c / 4096, c / 64 % 64, c % 64;
    assert c == a * 4096 + b * 64 + d;
    assert 0 <= a <= 15 && 0 <= b < 64 && 0 <= d < 64;
  }

  lemma FourBytes(c: int)
    requires 0xFFFF < c && Scalar(c)
    ensures var e := Encode(c);
      && |e| == 4 && 0xF0 <= e[0] <= 0xF4 && Tail(e[1]) && Tail(e[2]) && Tail(e[3])
      && (e[0] == 0xF0 ==> e[1] >= 0x90) && (e[0] == 0xF4 ==> e[1] <= 0x8F)
  {
    var q1 := c / 64;
    var q2 := q1 / 64;
    var q3 := q2 / 64;
    Quotients(c);
    assert 64 * q1 <= c < 64 * q1 + 64 && 64 * q2 <= q1 < 64 * q2 + 64 && 64 * q3 <= q2 < 64 * q3 + 64;
    assert q2 % 64 == q2 - 64 * q3;
  }

  lemma Digits(high: int, low: int)
    requires 0 <= low < 64
    ensures (high * 64 + low) / 64 == high && (high * 64 + low) % 64 == low
  {
  }

  lemma Quotients(c: int)
    requires c >= 0
    ensures c / 4096 == c / 64 / 64 && c / 262144 == c / 64 / 64 / 64
  {
  }

  lemma WidthIsEncoding(s: seq<byte>)
    requires Width(s) > 0
    ensures Scalar(Decode(s)) && Encode(Decode(s)) == s[..Width(s)]
  {
    var n, c := Width(s), Decode(s);
    if n == 2 {
      Digits(Payload(s[0], 0xC0), Payload(s[1], 0x80));
    } else if n == 3 {
      ThreeIsEncoding(s);
    } else if n == 4 {
      FourIsEncoding(s);
    }
  }

  lemma ThreeIsEncoding(s: seq<byte>)
    requires Width(s) == 3
    ensures Scalar(Decode(s)) && Encode(Decode(s)) == s[..3]
  {
    var a, b, d := Payload(s[0], 0xE0), Payload(s[1], 0x80), Payload(s[2], 0x80);
    var c := Decode(s);
    assert 0 <= a <= 15 && 0 <= b < 64 && 0 <= d < 64 && (a == 0 ==> b >= 32) && (a == 13 ==> b < 32);
    hide Width;
    assert c == (a * 64 + b) * 64 + d;
    Digits(a * 64 + b, d);
    Digits(a, b);
    Quotients(c);
  }

  lemma FourIsEncoding(s: seq<byte>)
    requires Width(s) == 4
    ensures Scalar(Decode(s)) && Encode(Decode(s)) == s[..4]
  {
    var a, b, d, e := Payload(s[0], 0xF0), Payload(s[1], 0x80), Payload(s[2], 0x80), Payload(s[3], 0x80);
    var c := Decode(s);
    assert 0 <= a <= 4 && 0 <= b < 64 && 0 <= d < 64 && 0 <= e < 64 && (a == 0 ==> b >= 16) && (a == 4 ==> b < 16);
    hide Width;
    assert c == ((a * 64 + b) * 64 + d) * 64 + e;
    Digits((a * 64 + b) * 64 + d, e);
    Digits(a * 64 + b, d);
    Digits(a, b);
    Quotients(c);
  }

  /** A text begins with a character of this width if and only if it begins with the encoding of a scalar value of that length. */
  lemma WidthMeans(s: seq<byte>, n: nat)
    ensures n > 0 ==> (Width(s) == n <==> exists c :: Scalar(c) && Encode(c) <= s && |Encode(c)| == n)
  {
    if n > 0 && Width(s) == n {
      WidthIsEncoding(s);
      assert Encode(Decode(s)) <= s;
    }
    if c :| Scalar(c) && Encode(c) <= s && |Encode(c)| == n {
      EncodingHasWidth(c, s);
    }
  }

  // ----- the reference ------------------------------------------------------------------------------------

  /** How many bytes of whole characters `s` begins with, within the limit. */
  function Whole(s: seq<byte>, limit: nat): (n: nat)
    ensures n <= |s| && n <= limit
    decreases |s|
  {
    var width := Width(s);
    if 0 < width <= limit then width + Whole(s[width..], limit - width) else 0
  }

  /** The window at a one-based offset: refused past the end, inside a character, and when not one character fits. */
  function WindowAt(text: seq<byte>, offset: int, limit: int): Window {
    if offset < 1 || limit < 1 || offset > |text| + 1 || !Boundary(text, offset - 1) then Refused
    else
      var start := offset - 1;
      var n := Whole(text[start..], limit);
      if n == 0 && start < |text| then Refused
      else Page(text[start..start + n], offset, n, start + n < |text|, if start + n < |text| then offset + n else 0)
  }

  /** `Whole` is the largest boundary within the limit. */
  lemma {:induction false} WholeIsLongest(s: seq<byte>, limit: nat, k: nat)
    ensures Boundary(s, Whole(s, limit))
    ensures Whole(s, limit) < k <= limit ==> !Boundary(s, k)
    decreases |s|
  {
    hide Width;
    var width := Width(s);
    if 0 < width <= limit {
      WholeIsLongest(s[width..], limit - width, if k >= width then k - width else 0);
    }
  }

  lemma LongestIsWhole(s: seq<byte>, limit: nat, n: nat)
    requires n <= limit && Boundary(s, n) && forall k :: n < k <= limit ==> !Boundary(s, k)
    ensures Whole(s, limit) == n
  {
    WholeIsLongest(s, limit, n);
  }

  // ----- backing up ---------------------------------------------------------------------------------------

  /** The window of a text in memory. */
  method WindowUtf8(text: seq<byte>, offset: int, limit: int) returns (r: Window)
    ensures r == if Valid(text) then WindowAt(text, offset, limit) else Refused
  {
    hide Width, Valid, Boundary, Whole;
    if offset < 1 || limit < 1 || !Valid(text) || offset > |text| + 1 {
      return Refused;
    }
    var start := offset - 1;
    BoundaryIsRuneStart(text, start);
    if start < |text| && !RuneStart(text[start]) {
      return Refused;
    }
    var end := if |text| < start + limit then |text| else start + limit;
    forall k | end < k <= start + limit ensures !Boundary(text, k) {
      BoundaryWithin(text, k);
    }
    while end > start && end < |text| && !RuneStart(text[end])
      invariant start <= end <= |text| && end <= start + limit
      invariant forall k :: end < k <= start + limit ==> !Boundary(text, k)
    {
      BoundaryIsRuneStart(text, end);
      end := end - 1;
    }
    BoundaryIsRuneStart(text, end);
    EndIsWhole(text, start, end, limit);
    if end == start && start < |text| {
      return Refused;
    }
    var more := end < |text|;
    return Page(text[start..end], offset, end - start, more, if more then end + 1 else 0);
  }

  /** The last boundary within the limit, seen from the start of the text and from the start of the window. */
  lemma EndIsWhole(text: seq<byte>, start: nat, end: nat, limit: nat)
    requires Boundary(text, start) && Boundary(text, end) && start <= end <= start + limit
    requires forall k :: end < k <= start + limit ==> !Boundary(text, k)
    ensures start <= |text| && Whole(text[start..], limit) == end - start
  {
    BoundaryShift(text, start, end - start);
    forall k | end - start < k <= limit ensures !Boundary(text[start..], k) {
      BoundaryShift(text, start, k);
    }
    LongestIsWhole(text[start..], limit, end - start);
  }

  // ----- decoding forward -----------------------------------------------------------------------------------

  /** Longest width of a character. */
  const UtfMax := 4

  /**
    The window of a response body that is only read once: skip to the offset, read a little more than the
    limit and decode.  The caller has checked the offset and the limit.
   */
  method ReadServiceWindow(body: seq<byte>, offset: int, limit: int) returns (r: Window)
    requires offset >= 1 && limit >= 1
    ensures Valid(body) ==> r == WindowAt(body, offset, limit)
    ensures r.Page? ==> offset - 1 + r.bytes <= |body| && r.content == body[offset - 1..offset - 1 + r.bytes] && Valid(r.content) && r.bytes <= limit
  {
    hide Width, Valid, Boundary, Whole;
    if offset > 1 && offset - 1 > |body| {
      return Refused;
    }
    var rest := body[offset - 1..];
    var data := if |rest| < limit + UtfMax then rest else rest[..limit + UtfMax];
    StartsInside(body, offset - 1, limit);
    var end := DecodeWhole(rest, data, limit);
    if end.None? || (|data| > 0 && end.value == 0) {
      return Refused;
    }
    var more := |data| > end.value;
    assert data[..end.value] == rest[..end.value] == body[offset - 1..offset - 1 + end.value];
    return Page(data[..end.value], offset, end.value, more, if more then offset + end.value else 0);
  }

  /** Decode character by character up to the limit; nothing when something there is no character. */
  method DecodeWhole(rest: seq<byte>, data: seq<byte>, limit: nat) returns (r: Option<nat>)
    requires data <= rest && (data == rest || |data| >= limit + UtfMax)
    ensures r.Some? ==> r.value == Whole(rest, limit) && r.value <= |data| && Valid(rest[..r.value])
    ensures r.None? ==> !Valid(rest)
  {
    hide Width, Valid, Boundary, Whole;
    var end := 0;
    assert Boundary(rest, 0) && rest[0..] == rest by { WholeIsLongest(rest, 0, 0); }
    while end < |data| && end < limit
      invariant end <= |data| && end <= limit && Boundary(rest, end)
      invariant Whole(rest, limit) == end + Whole(rest[end..], limit - end)
      decreases limit - end
    {
      SameWidth(rest, data, end);
      WholeStep(rest, end, limit);
      var width := Width(data[end..]);
      if width == 0 {
        InvalidFrom(rest, end);
        return None;
      }
      if end + width > limit {
        break;
      }
      end := end + width;
    }
    BoundaryInside(rest, end);
    return Some(end);
  }

  /** What was read beyond the limit is enough to decode the character at `end`. */
  lemma SameWidth(rest: seq<byte>, data: seq<byte>, end: nat)
    requires data <= rest && end <= |data| && (data == rest || |data| >= end + UtfMax)
    ensures Width(data[end..]) == Width(rest[end..])
  {
    assert data == rest[..|data|];
    assert data[end..] == rest[end..][..|data| - end];
    WidthPrefix(data[end..], rest[end..]);
  }

  /** One more character, if there is one and it fits. */
  lemma WholeStep(rest: seq<byte>, end: nat, limit: nat)
    requires end <= |rest| && end <= limit && Boundary(rest, end)
    ensures var width := Width(rest[end..]);
      if 0 < width && end + width <= limit
      then Boundary(rest, end + width) && Whole(rest[end..], limit - end) == width + Whole(rest[end + width..], limit - end - width)
      else Whole(rest[end..], limit - end) == 0
  {
    hide Width;
    var width := Width(rest[end..]);
    if 0 < width {
      BoundaryShift(rest, end, width);
      assert rest[end..][width..] == rest[end + width..];
    }
  }

  /** A valid text has a character at every boundary but its end. */
  lemma InvalidFrom(rest: seq<byte>, end: nat)
    requires end < |rest| && Boundary(rest, end) && Width(rest[end..]) == 0
    ensures !Valid(rest)
  {
    if Valid(rest) {
      BoundaryInside(rest, end);
    }
  }

  /** Inside a character of a valid text there is no character to decode. */
  lemma StartsInside(body: seq<byte>, start: nat, limit: nat)
    requires start <= |body|
    ensures Valid(body) && !Boundary(body, start) ==> start < |body| && Whole(body[start..], limit) == 0
    ensures Valid(body) && Boundary(body, start) ==> Valid(body[start..])
  {
    if Valid(body) {
      BoundaryIsRuneStart(body, start);
      if Boundary(body, start) {
        BoundaryInside(body, start);
      }
    }
  }

  /** For every valid text the two implementations agree: on refusal, content, byte count, more and next offset. */
  method BothWindows(text: seq<byte>, offset: int, limit: int) returns (memory: Window, stream: Window)
    requires Valid(text) && offset >= 1 && limit >= 1
    ensures memory == stream
  {
    memory := WindowUtf8(text, offset, limit);
    stream := ReadServiceWindow(text, offset, limit);
  }

  // ----- paging ---------------------------------------------------------------------------------------------

  /** Every character fits in the limit. */
  predicate Fits(s: seq<byte>, limit: nat)
    decreases |s|
  {
    s == [] || Width(s) == 0 || (Width(s) <= limit && Fits(s[Width(s)..], limit))
  }

  function Flatten(pages: seq<seq<byte>>): seq<byte> {
    if pages == [] then [] else pages[0] + Flatten(pages[1..])
  }

  lemma {:induction false} FitsAfter(s: seq<byte>, limit: nat, k: nat)
    requires Valid(s) && Boundary(s, k) && k <= |s|
    ensures Fits(s, limit) ==> Fits(s[k..], limit)
    ensures k <= limit && Fits(s[k..], limit) ==> Fits(s, limit)
    decreases |s|
  {
    hide Width;
    if k > 0 {
      var n := Width(s);
      BoundaryInside(s[n..], k - n);
      FitsAfter(s[n..], limit, k - n);
      assert s[n..][k - n..] == s[k..];
    } else {
      assert s[0..] == s;
    }
  }

  lemma FirstFits(s: seq<byte>, limit: nat)
    requires Valid(s)
    ensures s == [] ==> Fits(s, limit)
    ensures s != [] && Whole(s, limit) == 0 ==> !Fits(s, limit)
  {
  }

  /** Following the next offset from `offset` until there is none: the contents seen, and whether no request was refused. */
  function Follow(text: seq<byte>, offset: nat, limit: nat): (seq<seq<byte>>, bool)
    requires offset >= 1
    decreases |text| + 1 - offset
  {
    var w := WindowAt(text, offset, limit);
    if w.Refused? then ([], false)
    else if !w.more then ([w.content], true)
    else if w.next <= offset then ([w.content], false)
    else
      var (pages, ok) := Follow(text, w.next, limit);
      ([w.content] + pages, ok)
  }

  /** One request of a valid text, at a boundary. */
  lemma OnePage(text: seq<byte>, offset: nat, limit: nat)
    requires Valid(text) && 1 <= offset <= |text| + 1 && Boundary(text, offset - 1) && limit >= 1
    ensures var w := WindowAt(text, offset, limit); var rest := text[offset - 1..];
      if w.Refused? then !Fits(rest, limit)
      else
        && |w.content| == w.bytes <= |rest| && w.content == rest[..w.bytes] && Valid(w.content) && w.bytes <= limit
        && (if w.more then w.next == offset + w.bytes > offset && w.next <= |text| + 1 else w.bytes == |rest|)
        && Boundary(text, offset - 1 + w.bytes)
        && (Fits(rest, limit) <==> w.more ==> Fits(rest[w.bytes..], limit))
  {
    hide Width, Valid, Boundary, Whole, Fits;
    var start := offset - 1;
    var rest := text[start..];
    var n := Whole(rest, limit);
    BoundaryInside(text, start);
    WholeIsLongest(rest, limit, 0);
    BoundaryInside(rest, n);
    FitsAfter(rest, limit, n);
    FirstFits(rest, limit);
    FirstFits(rest[n..], limit);
    BoundaryShift(text, start, n);
    assert text[start..start + n] == rest[..n];
  }

  /** The next offset is always ahead, so paging ends; it reaches the end if and only if every character fits. */
  lemma {:induction false} PagingFrom(text: seq<byte>, offset: nat, limit: nat)
    requires Valid(text) && 1 <= offset <= |text| + 1 && Boundary(text, offset - 1) && limit >= 1
    ensures var (pages, ok) := Follow(text, offset, limit);
      && (ok <==> Fits(text[offset - 1..], limit))
      && (ok ==> Flatten(pages) == text[offset - 1..])
      && (forall i :: 0 <= i < |pages| ==> |pages[i]| <= limit && Valid(pages[i]))
    decreases |text| + 1 - offset
  {
    hide Valid, Boundary, Fits, WindowAt;
    OnePage(text, offset, limit);
    var w := WindowAt(text, offset, limit);
    var rest := text[offset - 1..];
    if w.Page? {
      if w.more {
        assert rest[w.bytes..] == text[w.next - 1..];
        PagingFrom(text, w.next, limit);
        var (pages, ok) := Follow(text, w.next, limit);
        assert ([w.content] + pages)[1..] == pages;
        assert rest == w.content + rest[w.bytes..];
      } else {
        assert w.content == rest && [w.content][1..] == [] && rest + [] == rest;
      }
    }
  }

  lemma {:induction false} FourFits(s: seq<byte>, limit: nat)
    requires limit >= UtfMax
    ensures Fits(s, limit)
    decreases |s|
  {
    if s != [] && Width(s) > 0 {
      FourFits(s[Width(s)..], limit);
    }
  }

  /** With a limit of at least four bytes, the windows of any valid text concatenate to the text. */
  lemma Paging(text: seq<byte>, limit: nat)
    requires Valid(text) && limit >= 4
    ensures Follow(text, 1, limit).1 && Flatten(Follow(text, 1, limit).0) == text
  {
    FourFits(text, limit);
    PagingFrom(text, 1, limit);
    assert text[0..] == text;
  }
}
