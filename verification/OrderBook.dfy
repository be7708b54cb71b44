/**
 * The incrementally maintained order book of runtime/src/lighter.rs, proved equal to a
 * replay of the frames it accepted since its last reset.
 */
module OrderBooks {
  import opened Common
  import opened Decimals

  datatype Level = Level(price: string, size: string)

  datatype Frame = Frame(code: int, asks: seq<Level>, bids: seq<Level>, nonce: nat, beginNonce: nat)

  // ---------------------------------------------------------------- decimal_is_zero

  // Digits, optionally followed by a point and more digits.
  predicate IsDecimal(s: string) {
    || (s != "" && AllDigits(s))
    || exists k :: 0 < k < |s| - 1 && s[k] == '.' && AllDigits(s[..k]) && AllDigits(s[k+1..])
  }

  // The digits of a decimal, its point dropped: zero exactly when the decimal is zero.
  function Unpointed(s: string): (r: string) {
    if s == "" then "" else
    var front := Unpointed(s[..|s|-1]);
    if s[|s|-1] == '.' then front else front + [s[|s|-1]]
  }

  lemma AppendedDigit(u: string, c: char)
    requires AllDigits(u) && IsDigit(c)
    ensures AllDigits(u + [c])
    ensures ValueOf(u + [c]) == 0 <==> ValueOf(u) == 0 && c == '0'
  {
    assert (u + [c])[..|u|] == u;
  }

  predicate OnlyZeros(s: string) { forall k | 0 <= k < |s| :: s[k] == '0' || s[k] == '.' }

  lemma {:induction false} UnpointedDigits(s: string)
    requires forall k | 0 <= k < |s| :: IsDigit(s[k]) || s[k] == '.'
    ensures AllDigits(Unpointed(s))
    ensures ValueOf(Unpointed(s)) == 0 <==> OnlyZeros(s)
  {
    if s != "" {
      var front, last := s[..|s|-1], s[|s|-1];
      UnpointedDigits(front);
      if last != '.' { AppendedDigit(Unpointed(front), last); }
      assert OnlyZeros(s) <==> OnlyZeros(front) && (last == '0' || last == '.');
    }
  }

  predicate IsZeroDecimal(s: string)
    requires IsDecimal(s)
  {
    UnpointedDigits(s);
    ValueOf(Unpointed(s)) == 0
  }

  // What the scan has seen of a prefix: its digit count, its point, and whether it is still zero.
  ghost predicate Scanned(s: string, k: nat, digits: nat, dots: nat, zero: bool)
    requires k <= |s|
  {
    && digits + dots == k
    && (dots == 0 ==> AllDigits(s[..k]))
    && (dots == 1 ==> exists d :: 0 < d < k && s[d] == '.' && AllDigits(s[..d]) && AllDigits(s[d+1..k]))
    && dots <= 1
    && (forall j | 0 <= j < k :: IsDigit(s[j]) || s[j] == '.')
    && (zero <==> forall j | 0 <= j < k :: s[j] == '0' || s[j] == '.')
  }

  lemma ScanDigit(s: string, k: nat, digits: nat, dots: nat, zero: bool)
    requires k < |s| && Scanned(s, k, digits, dots, zero) && IsDigit(s[k])
    ensures Scanned(s, k + 1, digits + 1, dots, zero && s[k] == '0')
  {
    assert s[..k+1] == s[..k] + [s[k]];
    if dots == 1 {
      var d :| 0 < d < k && s[d] == '.' && AllDigits(s[..d]) && AllDigits(s[d+1..k]);
      assert s[d+1..k+1] == s[d+1..k] + [s[k]];
    }
  }

  lemma ScanPoint(s: string, k: nat, digits: nat, zero: bool)
    requires k < |s| && Scanned(s, k, digits, 0, zero) && s[k] == '.' && digits > 0
    ensures Scanned(s, k + 1, digits, 1, zero)
  {
    assert s[k+1..k+1] == "";
  }

  // The point of a decimal that is not all digits, with digits around it.
  lemma PointOf(s: string) returns (d: nat)
    requires IsDecimal(s) && !AllDigits(s)
    ensures 0 < d < |s| - 1 && s[d] == '.'
    ensures forall j | 0 <= j < |s| && j != d :: IsDigit(s[j])
  {
    d :| 0 < d < |s| - 1 && s[d] == '.' && AllDigits(s[..d]) && AllDigits(s[d+1..]);
    forall j | 0 <= j < |s| && j != d ensures IsDigit(s[j]) {
      if j < d {
        assert s[..d][j] == s[j];
      } else {
        assert s[d+1..][j - d - 1] == s[j];
      }
    }
  }

  // A character the scan refuses appears in no decimal at that place.
  lemma ScanRefuses(s: string, k: nat, digits: nat, dots: nat, zero: bool)
    requires k < |s| && Scanned(s, k, digits, dots, zero)
    requires !IsDigit(s[k]) && !(s[k] == '.' && dots == 0 && digits > 0)
    ensures !IsDecimal(s)
  {
    if IsDecimal(s) {
      var d := PointOf(s);
      assert false;
    }
  }

  lemma ScanEnds(s: string, digits: nat, dots: nat, zero: bool)
    requires Scanned(s, |s|, digits, dots, zero)
    ensures IsDecimal(s) <==> digits > 0 && s[|s|-1] != '.'
    ensures IsDecimal(s) ==> (zero <==> IsZeroDecimal(s))
  {
    assert s[..|s|] == s;
    if IsDecimal(s) {
      UnpointedDigits(s);
      if !AllDigits(s) {
        var d := PointOf(s);
        assert IsDigit(s[|s|-1]);
      }
    }
    if dots == 1 && digits > 0 && s[|s|-1] != '.' {
      var d :| 0 < d < |s| && s[d] == '.' && AllDigits(s[..d]) && AllDigits(s[d+1..|s|]);
      assert s[d+1..|s|] == s[d+1..];
    }
  }

  /** Accepts exactly digits with an optional non-empty fraction, and is true exactly for zero. */
  method DecimalIsZero(s: string) returns (r: Option<bool>)
    ensures r.Some? <==> IsDecimal(s)
    ensures r.Some? ==> (r.value <==> IsZeroDecimal(s))
  {
    var digits, dots, zero := 0, 0, true;
    var k := 0;
    while k < |s|
      invariant k <= |s|
      invariant Scanned(s, k, digits, dots, zero)
    {
      var c := s[k];
      if IsDigit(c) {
        ScanDigit(s, k, digits, dots, zero);
        digits := digits + 1;
        if c != '0' { zero := false; }
      } else if c == '.' && dots == 0 && digits > 0 {
        ScanPoint(s, k, digits, zero);
        dots := dots + 1;
      } else {
        ScanRefuses(s, k, digits, dots, zero);
        return None;
      }
      k := k + 1;
    }
    ScanEnds(s, digits, dots, zero);
    if digits == 0 || s[|s|-1] == '.' { return None; }
    return Some(zero);
  }

  // ---------------------------------------------------------------- levels

  predicate GoodLevel(l: Level) {
    IsDecimal(l.price) && !IsZeroDecimal(l.price) && IsDecimal(l.size)
  }

  predicate GoodLevels(levels: seq<Level>) { forall k | 0 <= k < |levels| :: GoodLevel(levels[k]) }

  method ValidateLevels(levels: seq<Level>) returns (ok: bool)
    ensures ok <==> GoodLevels(levels)
  {
    for k := 0 to |levels|
      invariant GoodLevels(levels[..k])
    {
      var price := DecimalIsZero(levels[k].price);
      if price != Some(false) { return false; }
      var size := DecimalIsZero(levels[k].size);
      if size.None? { return false; }
      assert levels[..k+1] == levels[..k] + [levels[k]];
    }
    assert levels[..|levels|] == levels;
    return true;
  }

  // The size the last write to a price gave it, scanning the writes from the end.
  function LastWrite(levels: seq<Level>, price: string): (r: Option<string>)
    decreases |levels|
  {
    if levels == [] then None
    else if levels[|levels|-1].price == price then Some(levels[|levels|-1].size)
    else LastWrite(levels[..|levels|-1], price)
  }

  // One side of the book shows exactly the last non-zero writes.
  ghost predicate Shows(book: map<string, string>, levels: seq<Level>)
    requires GoodLevels(levels)
  {
    forall p :: ShowsPrice(book, levels, p)
  }

  ghost predicate ShowsPrice(book: map<string, string>, levels: seq<Level>, p: string)
    requires GoodLevels(levels)
  {
    LastWriteGood(levels, p);
    match LastWrite(levels, p)
    case None => p !in book
    case Some(size) => if IsZeroDecimal(size) then p !in book else p in book && book[p] == size
  }

  lemma {:induction false} LastWriteGood(levels: seq<Level>, p: string)
    requires GoodLevels(levels)
    ensures LastWrite(levels, p).Some? ==> IsDecimal(LastWrite(levels, p).value)
    decreases |levels|
  {
    if levels != [] {
      assert GoodLevel(levels[|levels|-1]);
      LastWriteGood(levels[..|levels|-1], p);
    }
  }

  // Writing more levels onto a book that shows `before` makes it show `before + levels`.
  method WriteLevels(book: map<string, string>, ghost before: seq<Level>, levels: seq<Level>)
    returns (r: map<string, string>)
    requires GoodLevels(before) && GoodLevels(levels) && Shows(book, before)
    ensures GoodLevels(before + levels) && Shows(r, before + levels)
  {
    r := book;
    assert before + levels[..0] == before;
    for k := 0 to |levels|
      invariant GoodLevels(before + levels[..k])
      invariant Shows(r, before + levels[..k])
    {
      var level := levels[k];
      assert GoodLevel(level);
      var zero := DecimalIsZero(level.size);
      ghost var done := before + levels[..k];
      ghost var was := r;
      if zero == Some(true) {
        r := r - {level.price};
      } else {
        r := r[level.price := level.size];
      }
      WriteOne(was, r, done, level);
      assert before + levels[..k+1] == done + [level];
    }
    assert levels[..|levels|] == levels;
  }

  lemma WriteOne(was: map<string, string>, now: map<string, string>, done: seq<Level>, level: Level)
    requires GoodLevels(done) && GoodLevel(level) && Shows(was, done)
    requires now == if IsZeroDecimal(level.size) then was - {level.price} else was[level.price := level.size]
    ensures GoodLevels(done + [level]) && Shows(now, done + [level])
  {
    assert (done + [level])[..|done|] == done;
    forall p ensures ShowsPrice(now, done + [level], p) {
      assert ShowsPrice(was, done, p);
    }
  }

  // ---------------------------------------------------------------- frames since the last reset

  predicate GoodFrame(f: Frame) {
    f.code == 0 && GoodLevels(f.bids) && GoodLevels(f.asks) && f.nonce >= f.beginNonce
  }

  // The accepted, nonce-chained frames since the last rejected one.
  function Epoch(history: seq<Frame>): (r: seq<Frame>)
    decreases |history|
  {
    if history == [] then [] else
    var before := Epoch(history[..|history|-1]);
    var f := history[|history|-1];
    if !GoodFrame(f) || (before != [] && f.beginNonce != before[|before|-1].nonce) then [] else before + [f]
  }

  function BidWrites(frames: seq<Frame>): (r: seq<Level>)
    decreases |frames|
  {
    if frames == [] then [] else BidWrites(frames[..|frames|-1]) + frames[|frames|-1].bids
  }

  function AskWrites(frames: seq<Frame>): (r: seq<Level>)
    decreases |frames|
  {
    if frames == [] then [] else AskWrites(frames[..|frames|-1]) + frames[|frames|-1].asks
  }

  lemma {:induction false} EpochIsGood(history: seq<Frame>)
    ensures forall k | 0 <= k < |Epoch(history)| :: GoodFrame(Epoch(history)[k])
    ensures forall k | 0 < k < |Epoch(history)| ::
              Epoch(history)[k].beginNonce == Epoch(history)[k-1].nonce
    decreases |history|
  {
    if history != [] {
      EpochIsGood(history[..|history|-1]);
    }
  }

  lemma {:induction false} WritesAreGood(frames: seq<Frame>)
    requires forall k | 0 <= k < |frames| :: GoodFrame(frames[k])
    ensures GoodLevels(BidWrites(frames)) && GoodLevels(AskWrites(frames))
    decreases |frames|
  {
    if frames != [] {
      WritesAreGood(frames[..|frames|-1]);
      assert GoodFrame(frames[|frames|-1]);
    }
  }

  // ---------------------------------------------------------------- the book

  class OrderBook {
    var nonce: Option<nat>
    var bids: map<string, string>
    var asks: map<string, string>

    // The book is the replay of the frames of `history` accepted since its last reset.
    ghost predicate ReplayOf(history: seq<Frame>)
      reads this
    {
      EpochIsGood(history);
      var frames := Epoch(history);
      WritesAreGood(frames);
      && (nonce.None? <==> frames == [])
      && (frames != [] ==> nonce == Some(frames[|frames|-1].nonce))
      && Shows(bids, BidWrites(frames))
      && Shows(asks, AskWrites(frames))
    }

    constructor ()
      ensures ReplayOf([])
      ensures nonce.None? && bids == map[] && asks == map[]
    {
      nonce := None;
      bids := map[];
      asks := map[];
    }

    /** One frame: the book stays the replay of its history, and a rejected frame empties it. */
    method Apply(f: Frame, ghost history: seq<Frame>) returns (ok: bool)
      requires ReplayOf(history)
      modifies this
      ensures ReplayOf(history + [f])
      ensures ok <==> GoodFrame(f) && (old(nonce).None? || old(nonce) == Some(f.beginNonce))
      ensures ok ==> nonce == Some(f.nonce)
      ensures !ok ==> nonce.None? && bids == map[] && asks == map[]
    {
      ghost var all := history + [f];
      assert all[..|history|] == history;
      ghost var frames := Epoch(history);
      EpochIsGood(history);
      WritesAreGood(frames);
      ok := ApplyValidated(f, frames);
      if !ok {
        Invalidate();
        assert Epoch(all) == [];
      } else {
        assert Epoch(all) == frames + [f];
        assert (frames + [f])[..|frames|] == frames;
      }
    }

    method ApplyValidated(f: Frame, ghost frames: seq<Frame>) returns (ok: bool)
      requires forall k | 0 <= k < |frames| :: GoodFrame(frames[k])
      requires GoodLevels(BidWrites(frames)) && GoodLevels(AskWrites(frames))
      requires nonce.None? <==> frames == []
      requires frames != [] ==> nonce == Some(frames[|frames|-1].nonce)
      requires Shows(bids, BidWrites(frames)) && Shows(asks, AskWrites(frames))
      modifies this
      ensures ok <==> GoodFrame(f) && (old(nonce).None? || old(nonce) == Some(f.beginNonce))
      ensures ok ==> nonce == Some(f.nonce)
      ensures ok ==> GoodLevels(BidWrites(frames) + f.bids) && Shows(bids, BidWrites(frames) + f.bids)
      ensures ok ==> GoodLevels(AskWrites(frames) + f.asks) && Shows(asks, AskWrites(frames) + f.asks)
    {
      if f.code != 0 { return false; }
      var goodBids := ValidateLevels(f.bids);
      if !goodBids { return false; }
      var goodAsks := ValidateLevels(f.asks);
      if !goodAsks { return false; }
      match nonce {
        case None =>
          if f.nonce < f.beginNonce { return false; }
          bids := map[];
          asks := map[];
        case Some(current) =>
          if f.beginNonce != current { return false; }
          if f.nonce < f.beginNonce { return false; }
      }
      bids := WriteLevels(bids, BidWrites(frames), f.bids);
      asks := WriteLevels(asks, AskWrites(frames), f.asks);
      nonce := Some(f.nonce);
      return true;
    }

    method Invalidate()
      modifies this
      ensures nonce.None? && bids == map[] && asks == map[]
    {
      nonce := None;
      bids := map[];
      asks := map[];
    }
  }

  // ---------------------------------------------------------------- what the replay means

  /** Whatever made the book reject a frame, a malformed one or a gap, nothing from before it is left in the replay. */
  lemma {:induction false} RejectionForgets(early: seq<Frame>, bad: Frame, late: seq<Frame>)
    requires Epoch(early + [bad]) == []
    ensures Epoch(early + [bad] + late) == Epoch(late)
    decreases |late|
  {
    var whole := early + [bad] + late;
    if late == [] {
      assert whole == early + [bad];
    } else {
      var front := late[..|late|-1];
      RejectionForgets(early, bad, front);
      assert whole[..|whole|-1] == early + [bad] + front;
    }
  }

  /** And those are exactly the rejections: a malformed frame, or one that does not begin at the book's nonce. */
  lemma RejectedExactly(early: seq<Frame>, f: Frame)
    ensures Epoch(early + [f]) == []
            <==> !GoodFrame(f) || (Epoch(early) != [] && f.beginNonce != Epoch(early)[|Epoch(early)|-1].nonce)
  {
    assert (early + [f])[..|early|] == early;
  }

  /** A price last written with size zero is absent, and one last written with another size shows it. */
  lemma ShownSizes(book: map<string, string>, levels: seq<Level>, price: string)
    requires GoodLevels(levels) && Shows(book, levels)
    ensures price in book <==> LastWrite(levels, price).Some?
                               && IsDecimal(LastWrite(levels, price).value)
                               && !IsZeroDecimal(LastWrite(levels, price).value)
    ensures price in book ==> LastWrite(levels, price) == Some(book[price])
  {
    LastWriteGood(levels, price);
    assert ShowsPrice(book, levels, price);
  }
}
