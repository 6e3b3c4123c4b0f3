/** Text measured in UTF-8 bytes: src/bash-tool/output-capture.ts, lines 108-135, and
  * src/bash-tool/output-view.ts, lines 102-106. Strings are sequences of code points, as the
  * decoder delivers them. */
module OutputText {
  /** Bytes of one code point in UTF-8 (section 3 of RFC 3629). */
  function Width(c: char): (w: nat)
    ensures 1 <= w <= 4
  {
    if c as int < 0x80 then 1 else if c as int < 0x800 then 2 else if c as int < 0x1_0000 then 3 else 4
  }

  function Bytes(text: string): nat
  {
    if text == [] then 0 else Bytes(text[..|text| - 1]) + Width(text[|text| - 1])
  }

  lemma {:induction false} BytesJoin(a: string, b: string)
    ensures Bytes(a + b) == Bytes(a) + Bytes(b)
  {
    if b == [] {
      assert a + b == a;
    } else {
      assert (a + b)[..|a| + |b| - 1] == a + b[..|b| - 1];
      BytesJoin(a, b[..|b| - 1]);
    }
  }

  lemma BytesSplit(text: string, k: nat)
    requires k <= |text|
    ensures Bytes(text) == Bytes(text[..k]) + Bytes(text[k..])
  {
    hide Bytes;
    BytesJoin(text[..k], text[k..]);
    assert text == text[..k] + text[k..];
  }

  lemma BytesUpTo(text: string, i: nat, j: nat)
    requires i <= j <= |text|
    ensures Bytes(text[..i]) <= Bytes(text[..j])
  {
    BytesSplit(text[..j], i);
    assert text[..j][..i] == text[..i];
  }

  lemma BytesOne(c: char)
    ensures Bytes([c]) == Width(c)
  {
    assert [c][..0] == [];
  }

  lemma {:induction false} BytesAtLeast(text: string)
    ensures Bytes(text) >= |text| && (Bytes(text) == 0 <==> text == [])
  {
    if text != [] { BytesAtLeast(text[..|text| - 1]); }
  }

  // ---------------------------------------------------------------- the ends of a text

  /** The longest suffix within the limit: drop characters in front until it fits. */
  function TakeTail(text: string, limit: nat): string
  {
    if Bytes(text) <= limit || text == [] then text else TakeTail(text[1..], limit)
  }

  /** The longest prefix within the limit. */
  function TakeHead(text: string, limit: nat): string
  {
    if Bytes(text) <= limit || text == [] then text else TakeHead(text[..|text| - 1], limit)
  }

  /** A suffix is the longest that fits: it fits, and one more character in front would not. */
  lemma {:induction false} TailIs(text: string, limit: nat, k: nat)
    requires k <= |text| && Bytes(text[k..]) <= limit && (k > 0 ==> Bytes(text[k - 1..]) > limit)
    ensures TakeTail(text, limit) == text[k..]
  {
    if k == 0 {
      assert text[0..] == text;
    } else {
      BytesSplit(text, k - 1);
      assert text[1..][k - 1..] == text[k..];
      if k > 1 { assert text[1..][k - 2..] == text[k - 1..]; }
      TailIs(text[1..], limit, k - 1);
    }
  }

  lemma TailStep(text: string, limit: nat)
    ensures TakeTail(text, limit) == if Bytes(text) <= limit || text == [] then text else TakeTail(text[1..], limit)
  {
  }

  lemma DropFirst(text: string, k: nat)
    requires 1 <= k <= |text|
    ensures text[1..][k - 1..] == text[k..]
  {
  }

  lemma {:induction false} TailFits(text: string, limit: nat)
    ensures var tail := TakeTail(text, limit);
            && Bytes(tail) <= limit && |tail| <= |text| && tail == text[|text| - |tail|..]
            && (|tail| < |text| ==> Bytes(text[|text| - |tail| - 1..]) > limit)
  {
    hide Bytes, TakeTail;
    BytesAtLeast(text);
    assert text[0..] == text;
    TailStep(text, limit);
    if Bytes(text) > limit && text != [] {
      TailFits(text[1..], limit);
      var k := |text| - |TakeTail(text[1..], limit)|;
      DropFirst(text, k);
      if k > 1 { DropFirst(text, k - 1); }
    }
  }

  lemma {:induction false} HeadIs(text: string, limit: nat, k: nat)
    requires k <= |text| && Bytes(text[..k]) <= limit && (k < |text| ==> Bytes(text[..k + 1]) > limit)
    ensures TakeHead(text, limit) == text[..k]
  {
    var n := |text|;
    if k == n {
      assert text[..n] == text;
    } else {
      BytesSplit(text, k + 1);
      var shorter := text[..n - 1];
      assert shorter[..k] == text[..k];
      if k + 1 < n { assert shorter[..k + 1] == text[..k + 1]; }
      HeadIs(shorter, limit, k);
    }
  }

  lemma {:induction false} HeadFits(text: string, limit: nat)
    ensures var head := TakeHead(text, limit);
            && Bytes(head) <= limit && |head| <= |text| && head == text[..|head|]
            && (|head| < |text| ==> Bytes(text[..|head| + 1]) > limit)
  {
    hide Bytes;
    BytesAtLeast(text);
    var n := |text|;
    if Bytes(text) > limit && n > 0 {
      var shorter := text[..n - 1];
      HeadFits(shorter, limit);
      var k := |TakeHead(shorter, limit)|;
      assert shorter[..k] == text[..k];
      if k + 1 < n { assert shorter[..k + 1] == text[..k + 1]; } else { assert text[..k + 1] == text; }
    } else {
      assert text[..n] == text;
    }
  }

  /** Character by character from the end, until one does not fit. */
  method TakeTailBytes(text: string, maxBytes: nat) returns (result: string)
    ensures result == TakeTail(text, maxBytes)
  {
    if Bytes(text) <= maxBytes { return text; }
    result := [];
    var used, index := 0, |text|;
    assert text[0..] == text;
    while index > 0
      invariant 0 <= index <= |text| && result == text[index..] && used == Bytes(result) <= maxBytes
    {
      index := index - 1;
      var size := Width(text[index]);
      assert text[index..] == [text[index]] + text[index + 1..];
      BytesJoin([text[index]], text[index + 1..]);
      BytesOne(text[index]);
      if used + size > maxBytes {
        TailIs(text, maxBytes, index + 1);
        return;
      }
      result := [text[index]] + result;
      used := used + size;
    }
    assert false;      // the whole text is too long
  }

  method TakeHeadBytes(text: string, maxBytes: nat) returns (result: string)
    ensures result == TakeHead(text, maxBytes)
  {
    if Bytes(text) <= maxBytes { return text; }
    result := [];
    var used, next := 0, 0;
    assert text[..|text|] == text;
    while next < |text|
      invariant 0 <= next <= |text| && result == text[..next] && used == Bytes(result) <= maxBytes
    {
      var size := Width(text[next]);
      assert text[..next + 1] == text[..next] + [text[next]];
      BytesJoin(text[..next], [text[next]]);
      BytesOne(text[next]);
      if used + size > maxBytes {
        HeadIs(text, maxBytes, next);
        return;
      }
      result := result + [text[next]];
      used := used + size;
      next := next + 1;
    }
    assert false;      // the whole text is too long
  }

  lemma {:induction false} TailShift(text: string, k: nat, limit: nat)
    requires k <= |text| && (k > 0 ==> Bytes(text[k - 1..]) > limit)
    ensures TakeTail(text[k..], limit) == TakeTail(text, limit)
  {
    if k == 0 {
      assert text[0..] == text;
    } else {
      BytesSplit(text, k - 1);
      assert text[1..][k - 1..] == text[k..];
      if k > 1 { assert text[1..][k - 2..] == text[k - 1..]; }
      TailShift(text[1..], k - 1, limit);
    }
  }

  /** Text cut to its tail before more arrives ends up with the same tail: cutting early loses nothing. */
  lemma TailOfTail(a: string, b: string, limit: nat)
    ensures TakeTail(TakeTail(a, limit) + b, limit) == TakeTail(a + b, limit)
  {
    hide TakeTail, Bytes;
    TailFits(a, limit);
    var k := |a| - |TakeTail(a, limit)|;
    assert (a + b)[k..] == a[k..] + b;
    if k > 0 {
      assert (a + b)[k - 1..] == a[k - 1..] + b;
      BytesJoin(a[k - 1..], b);
    }
    TailShift(a + b, k, limit);
  }

  // ---------------------------------------------------------------- lines

  function Breaks(text: string): nat
  {
    if text == [] then 0 else Breaks(text[..|text| - 1]) + if text[|text| - 1] == '\n' then 1 else 0
  }

  function CountLogicalLines(text: string): nat
  {
    if text == [] then 0 else Breaks(text) + if text[|text| - 1] == '\n' then 0 else 1
  }

  lemma {:induction false} BreaksJoin(a: string, b: string)
    ensures Breaks(a + b) == Breaks(a) + Breaks(b)
  {
    if b == [] {
      assert a + b == a;
    } else {
      assert (a + b)[..|a| + |b| - 1] == a + b[..|b| - 1];
      BreaksJoin(a, b[..|b| - 1]);
    }
  }

  // ---------------------------------------------------------------- a text in pieces

  function Concat(pieces: seq<string>): string
  {
    if pieces == [] then [] else Concat(pieces[..|pieces| - 1]) + pieces[|pieces| - 1]
  }

  /** All characters have the same width. */
  predicate Uniform(text: string, w: nat) { forall i | 0 <= i < |text| :: Width(text[i]) == w }

  predicate OneByte(text: string) { Uniform(text, 1) }

  lemma {:induction false} UniformBytes(text: string, w: nat)
    requires Uniform(text, w)
    ensures Bytes(text) == w * |text|
  {
    if text != [] {
      UniformBytes(text[..|text| - 1], w);
      assert w * (|text| - 1) + w == w * |text|;
    }
  }

  lemma OneByteBytes(text: string)
    requires OneByte(text)
    ensures Bytes(text) == |text|
  {
    UniformBytes(text, 1);
  }

  function Fitting(count: nat, w: nat, limit: nat): nat
    requires w > 0
  {
    if count <= limit / w then count else limit / w
  }

  lemma UniformEnds(text: string, w: nat, limit: nat)
    requires w > 0 && Uniform(text, w)
    ensures var k := Fitting(|text|, w, limit); TakeHead(text, limit) == text[..k] && TakeTail(text, limit) == text[|text| - k..]
  {
    hide Bytes, TakeHead, TakeTail;
    forall k | 0 <= k <= |text| ensures Bytes(text[..k]) == w * k && Bytes(text[k..]) == w * (|text| - k) {
      UniformBytes(text[..k], w);
      UniformBytes(text[k..], w);
    }
    var k := Fitting(|text|, w, limit);
    Quotient(k, w, limit);
    HeadIs(text, limit, k);
    TailIs(text, limit, |text| - k);
  }

  lemma Quotient(k: nat, w: nat, limit: nat)
    requires w > 0 && k <= limit / w
    ensures w * k <= limit && (k == limit / w ==> w * (k + 1) > limit)
  {
    assert w * k <= w * (limit / w);
    assert w * (k + 1) == w * k + w;
  }

  lemma OneByteEnds(text: string, limit: nat)
    requires OneByte(text)
    ensures TakeHead(text, limit) == text[..if |text| <= limit then |text| else limit]
    ensures TakeTail(text, limit) == text[if |text| <= limit then 0 else |text| - limit..]
  {
    hide TakeHead, TakeTail;
    UniformEnds(text, 1, limit);
  }

  // ---------------------------------------------------------------- the head, piece by piece

  /** The head that is kept while pieces arrive: filled up as long as it is below the limit. */
  function StreamedHead(pieces: seq<string>, limit: nat): string
  {
    if pieces == [] then []
    else
      var head, piece := StreamedHead(pieces[..|pieces| - 1], limit), pieces[|pieces| - 1];
      if piece != [] && Bytes(head) < limit then TakeHead(head + piece, limit) else head
  }

  /** A later piece begins with a character that fits where an earlier one did not. */
  ghost predicate SlipsIn(pieces: seq<string>, limit: nat, j: nat)
    requires j < |pieces|
  {
    var before := Concat(pieces[..j]);
    Bytes(before) > limit && pieces[j] != [] && Bytes(TakeHead(before, limit)) + Width(pieces[j][0]) <= limit
  }

  lemma HeadWhole(a: string, limit: nat)
    requires Bytes(a) <= limit
    ensures TakeHead(a, limit) == a
  {
  }

  lemma HeadSettled(a: string, b: string, limit: nat)
    requires Bytes(a) > limit
    ensures TakeHead(a + b, limit) == TakeHead(a, limit)
  {
    hide TakeHead, Bytes;
    HeadFits(a, limit);
    BytesAtLeast(a);
    var k := |TakeHead(a, limit)|;
    assert a[..|a|] == a;
    assert (a + b)[..k] == a[..k];
    if k < |a| { assert (a + b)[..k + 1] == a[..k + 1]; }
    HeadIs(a + b, limit, k);
  }

  /** Refilling a head that is short of the limit adds something exactly when the next character fits. */
  lemma Refill(head: string, piece: string, limit: nat)
    requires Bytes(head) <= limit && piece != []
    ensures var refilled := TakeHead(head + piece, limit);
            && Bytes(refilled) <= limit
            && if Bytes(head) + Width(piece[0]) > limit then refilled == head else Bytes(refilled) > Bytes(head)
  {
    hide TakeHead, Bytes;
    var all := head + piece;
    HeadFits(all, limit);
    var k := |TakeHead(all, limit)|;
    assert all[..|head|] == head && all[..|head| + 1] == head + [piece[0]];
    BytesJoin(head, [piece[0]]);
    BytesOne(piece[0]);
    if Bytes(head) + Width(piece[0]) > limit {
      HeadIs(all, limit, |head|);
    } else if k > |head| {
      BytesUpTo(all, |head| + 1, k);
    } else {
      BytesUpTo(all, k + 1, |head| + 1);
    }
  }

  /** What the head becomes, step by step: the longest prefix of the text unless something slips in,
    * and longer than that for good once something has. */
  lemma {:induction false} HeadExactly(pieces: seq<string>, limit: nat)
    ensures var head, prefix := StreamedHead(pieces, limit), TakeHead(Concat(pieces), limit);
            && Bytes(head) <= limit
            && (if exists j | 0 <= j < |pieces| :: SlipsIn(pieces, limit, j)
                then Bytes(Concat(pieces)) > limit && Bytes(head) > Bytes(prefix) else head == prefix)
  {
    hide Bytes, TakeHead;
    if pieces == [] {
      BytesAtLeast([]);
      HeadWhole([], limit);
    } else {
      var n := |pieces| - 1;
      HeadExactly(pieces[..n], limit);
      HeadStep(pieces, limit);
      forall j | 0 <= j < n ensures SlipsIn(pieces, limit, j) <==> SlipsIn(pieces[..n], limit, j) {
        assert pieces[..n][..j] == pieces[..j];
      }
      if j :| 0 <= j < n && SlipsIn(pieces[..n], limit, j) {
        assert SlipsIn(pieces, limit, j);
      }
    }
  }

  lemma HeadStep(pieces: seq<string>, limit: nat)
    requires pieces != []
    requires Bytes(StreamedHead(pieces[..|pieces| - 1], limit)) <= limit
    ensures var n := |pieces| - 1;
            var before, after := StreamedHead(pieces[..n], limit), StreamedHead(pieces, limit);
            var earlier, all := Concat(pieces[..n]), Concat(pieces);
            && Bytes(after) <= limit && Bytes(after) >= Bytes(before)
            && (Bytes(earlier) > limit ==> Bytes(all) > limit && TakeHead(all, limit) == TakeHead(earlier, limit))
            && (before == TakeHead(earlier, limit) ==>
                  if SlipsIn(pieces, limit, n) then Bytes(after) > Bytes(before) else after == TakeHead(all, limit))
  {
    hide Bytes, TakeHead;
    var n := |pieces| - 1;
    var before, piece, earlier := StreamedHead(pieces[..n], limit), pieces[n], Concat(pieces[..n]);
    assert Concat(pieces) == earlier + piece;
    BytesJoin(earlier, piece);
    if Bytes(earlier) > limit { HeadSettled(earlier, piece, limit); } else { HeadWhole(earlier, limit); }
    if piece == [] {
      assert earlier + piece == earlier;
    } else {
      Refill(before, piece, limit);
    }
  }

  /** Two ends that overlap weigh more than the text, and two that leave a gap weigh less. */
  lemma EndsWeigh(text: string, i: nat, j: nat)
    requires i <= |text| && j <= |text|
    ensures var both := Bytes(text[..i]) + Bytes(text[j..]);
            (i > j ==> both > Bytes(text)) && (i == j ==> both == Bytes(text)) && (i < j ==> both < Bytes(text))
  {
    hide Bytes;
    BytesSplit(text, j);
    if i > j {
      BytesSplit(text[..i], j);
      assert text[..i][..j] == text[..j];
      BytesAtLeast(text[..i][j..]);
    } else {
      BytesSplit(text[..j], i);
      assert text[..j][..i] == text[..i];
      BytesAtLeast(text[..j][i..]);
    }
  }
}
