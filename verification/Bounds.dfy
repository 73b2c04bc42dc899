/** The bounded readers of internal/bridge/bounds.go, over a source that hands out its bytes
    in pieces of any size, and bufio.Reader's ReadSlice with its reused buffer. */
module Bounds {
  import opened Wrappers
  import opened Lines

  const BUFFER_SIZE: nat := 4096

  /** An io.Reader.  Each Read returns as many bytes as it likes but at least one if there is
      room and input left; the end of the input is reported with the last bytes or after
      them, and again on every later call.  The choices are left open. */
  class Source {
    const data: seq<byte>
    const fate: Fate
    var pos: nat

    constructor (data: seq<byte>, fate: Fate)
      ensures this.data == data && this.fate == fate && pos == 0
    {
      this.data, this.fate, pos := data, fate, 0;
    }

    ghost predicate Valid()
      reads this
    {
      pos <= |data|
    }

    ghost function Rest(): seq<byte>
      requires Valid()
      reads this
    {
      data[pos..]
    }

    /** Read(buf[lo..hi]). */
    method Read(buf: array<byte>, lo: nat, hi: nat) returns (n: nat, err: Option<Fate>)
      requires Valid() && lo <= hi <= buf.Length
      modifies this`pos, buf
      ensures Valid() && lo + n <= hi && n <= |old(Rest())|
      ensures buf[..lo + n] == old(buf[..lo]) + old(Rest())[..n] && Rest() == old(Rest())[n..]
      ensures err.None? && lo < hi ==> n > 0
      ensures err.Some? ==> Rest() == [] && err.value == fate
    {
      var avail := if hi - lo < |data| - pos then hi - lo else |data| - pos;
      var wish: int := *;
      n := if wish < 1 && avail > 0 then 1 else if wish > avail then avail else if wish < 0 then 0 else wish;
      forall i | 0 <= i < n {
        buf[lo + i] := data[pos + i];
      }
      assert buf[..lo + n] == old(buf[..lo]) + data[pos..pos + n];
      assert data[pos..][..n] == data[pos..pos + n];
      pos := pos + n;
      err := None;
      var early: bool := *;
      if pos == |data| && (early || (n == 0 && lo < hi)) {
        err := Some(fate);
      }
    }
  }

  datatype Slice = Complete | BufferFull | Stopped(fate: Fate)

  lemma Refilled(before: seq<byte>, input: seq<byte>, n: nat)
    requires n <= |input|
    ensures (before + input[..n]) + input[n..] == before + input && (before + input[..n])[..|before|] == before
  {
  }

  lemma LineEnds(text: seq<byte>)
    requires NEWLINE !in text
    ensures OneLine(text + [NEWLINE]) && Terminated(text + [NEWLINE])
  {
  }

  lemma LineOpen(text: seq<byte>)
    requires NEWLINE !in text
    ensures OneLine(text) && !Terminated(text)
  {
  }

  /** bufio.Reader, as far as ReadSlice uses it. */
  class BufferedReader {
    const source: Source
    const buf: array<byte>
    var r: nat
    var w: nat
    var err: Option<Fate>

    constructor (source: Source)
      requires source.Valid()
      ensures this.source == source && fresh(buf) && Valid() && Rest() == source.Rest()
    {
      this.source := source;
      buf := new byte[BUFFER_SIZE];
      r, w, err := 0, 0, None;
    }

    ghost predicate Valid()
      reads this, source
    {
      && buf.Length == BUFFER_SIZE && r <= w <= buf.Length && source.Valid()
      && (err.Some? ==> source.Rest() == [] && err.value == source.fate)
    }

    /** Input not yet returned: what is buffered, then what the source still has. */
    ghost function Rest(): seq<byte>
      requires Valid()
      reads this, source, buf
    {
      buf[r..w] + source.Rest()
    }

    /** `copy(b.buf, b.buf[b.r:b.w])`: slide the buffered bytes down. */
    method Slide()
      requires Valid()
      modifies this`r, this`w, buf
      ensures Valid() && r == 0 && buf[..w] == old(buf[r..w])
    {
      forall i | 0 <= i < w - r {
        buf[i] := buf[r + i];
      }
      w, r := w - r, 0;
    }

    /** fill: slide the buffered bytes down and read once more. */
    method Fill()
      requires Valid() && err.None? && w - r < buf.Length
      modifies this`r, this`w, this`err, buf, source`pos
      ensures Valid() && r == 0 && Rest() == old(Rest())
      ensures w >= old(w - r) && (NEWLINE !in old(buf[r..w]) ==> NEWLINE !in buf[..old(w - r)])
      ensures err.None? ==> w > old(w - r)
    {
      ghost var before, input := buf[r..w], source.Rest();
      Slide();
      var n, e := source.Read(buf, w, buf.Length);
      Refilled(before, input, n);
      assert buf[..w] == buf[..w + n][..w];
      w := w + n;
      err := e;
    }

    /** The index of the first newline in buf[from..w]. */
    method IndexNewline(from: nat) returns (i: Option<nat>)
      requires Valid() && r <= from <= w
      ensures match i
              case Some(k) => from <= k < w && buf[k] == NEWLINE && NEWLINE !in buf[from..k]
              case None => NEWLINE !in buf[from..w]
    {
      var k := from;
      while k < w
        invariant from <= k <= w && NEWLINE !in buf[from..k]
      {
        if buf[k] == NEWLINE {
          return Some(k);
        }
        k := k + 1;
      }
      return None;
    }

    /** Where nothing was found before, the first newline from there on is the first of all. */
    lemma NoneBefore(s: nat, i: Option<nat>)
      requires Valid() && s <= w - r && NEWLINE !in buf[r..r + s]
      requires match i
               case Some(k) => r + s <= k < w && NEWLINE !in buf[r + s..k]
               case None => NEWLINE !in buf[r + s..w]
      ensures NEWLINE !in buf[r..if i.Some? then i.value else w]
    {
      var to := if i.Some? then i.value else w;
      assert buf[r..to] == buf[r..r + s] + buf[r + s..to];
    }

    /** `line = b.buf[b.r:to]; b.r = to` */
    method Take(to: nat) returns (lo: nat, hi: nat)
      requires Valid() && r <= to <= w
      modifies this`r
      ensures Valid() && lo == old(r) && hi == r == to && old(Rest()) == buf[lo..hi] + Rest()
    {
      assert buf[r..w] == buf[r..to] + buf[to..w];
      lo, hi, r := r, to, to;
    }

    /** The three ways ReadSlice returns: with a line, because the input has ended, or because
        the buffer is full. */
    method Cut(i: Option<nat>) returns (lo: nat, hi: nat, status: Slice)
      requires Valid() && (i.None? ==> err.Some? || w - r >= buf.Length)
      requires i.Some? ==> r <= i.value < w && buf[i.value] == NEWLINE
      requires NEWLINE !in buf[r..if i.Some? then i.value else w]
      modifies this`r, this`err
      ensures Valid() && lo <= hi <= buf.Length
      ensures old(Rest()) == buf[lo..hi] + Rest()
      ensures match status
              case Complete => lo < hi
              case BufferFull => hi - lo == buf.Length
              case Stopped(fate) => Rest() == [] && fate == source.fate
      ensures OneLine(buf[lo..hi]) && (Terminated(buf[lo..hi]) <==> status.Complete?)
    {
      if i.Some? {
        lo, hi := Take(i.value + 1);
        assert buf[lo..hi] == buf[lo..i.value] + [NEWLINE];
        LineEnds(buf[lo..i.value]);
        return lo, hi, Complete;
      }
      if err.Some? {
        lo, hi := Take(w);
        LineOpen(buf[lo..hi]);
        status := Stopped(err.value);
        err := None;
        return;
      }
      lo, hi := Take(w);
      LineOpen(buf[lo..hi]);
      status := BufferFull;
    }

    /** ReadSlice('\n').  The slice is buf[lo..hi], good until the next call. */
    method ReadSlice() returns (lo: nat, hi: nat, status: Slice)
      requires Valid()
      modifies this`r, this`w, this`err, buf, source`pos
      ensures Valid() && lo <= hi <= buf.Length
      ensures old(Rest()) == buf[lo..hi] + Rest()
      ensures match status
              case Complete => lo < hi
              case BufferFull => hi - lo == buf.Length
              case Stopped(fate) => Rest() == [] && fate == source.fate
      ensures OneLine(buf[lo..hi]) && (Terminated(buf[lo..hi]) <==> status.Complete?)
    {
      var s := 0;
      while true
        invariant Valid() && 0 <= s <= w - r && NEWLINE !in buf[r..r + s]
        invariant Rest() == old(Rest())
        decreases |source.Rest()|, err.None?
      {
        var i := IndexNewline(r + s);
        NoneBefore(s, i);
        if i.Some? || err.Some? || w - r >= buf.Length {
          lo, hi, status := Cut(i);
          return;
        }
        s := w - r;
        Fill();
      }
    }
  }

  /** `copy(p, b.pending)`. */
  method Copy(p: array<byte>, bytes: seq<byte>) returns (n: nat)
    modifies p
    ensures n == (if p.Length < |bytes| then p.Length else |bytes|) && p[..n] == bytes[..n]
  {
    n := if p.Length < |bytes| then p.Length else |bytes|;
    forall i | 0 <= i < n {
      p[i] := bytes[i];
    }
  }

  /** A read that hands out `got` leaves `after` of what was to be delivered. */
  predicate Takes(before: Delivery, got: seq<byte>, after: Delivery) {
    before == Delivery(got + after.bytes, after.error)
  }

  lemma TakesFront(front: seq<byte>, n: nat, rest: Delivery)
    requires n <= |front|
    ensures Takes(Delivery(front + rest.bytes, rest.error), front[..n], Delivery(front[n..] + rest.bytes, rest.error))
  {
    assert front == front[..n] + front[n..];
  }

  lemma TakesTwice(first: Delivery, a: seq<byte>, second: Delivery, b: seq<byte>, third: Delivery)
    requires Takes(first, a, second) && Takes(second, b, third)
    ensures Takes(first, a + b, third)
  {
    assert a + (b + third.bytes) == (a + b) + third.bytes;
  }

  /** What a failed reader answers from then on. */
  function AfterError(e: Error): Error {
    if e.EndOfFile? then EndOfFile else OutputLimit
  }

  class LineBound {
    const source: Source
    const rules: Rules
    var failed: bool
    var reader: BufferedReader?
    var pending: seq<byte>
    var eof: bool

    constructor (source: Source, rules: Rules)
      requires source.Valid()
      ensures this.source == source && this.rules == rules && Valid() && fresh(Footprint() - {source})
      ensures Rest() == Deliver(rules, source.Rest(), source.fate)
    {
      this.source, this.rules, failed, reader, pending, eof := source, rules, false, null, [], false;
    }

    ghost function Footprint(): set<object>
      reads this
    {
      {this, source} + if reader == null then {} else {reader, reader.buf}
    }

    /** A delivered frame waits here in part; it never exceeds the limit. */
    ghost predicate Valid()
      reads this, Footprint()
    {
      Linked() && |pending| <= rules.limit && (eof ==> Input() == [] && source.fate.Eof?)
    }

    ghost predicate Linked()
      reads this, Footprint()
    {
      source.Valid() && (reader != null ==> reader.source == source && reader.Valid())
    }

    /** Input bytes not yet looked at. */
    ghost function Input(): seq<byte>
      requires Linked()
      reads this, Footprint()
    {
      if reader == null then source.Rest() else reader.Rest()
    }

    /** All that reads from now on will deliver. */
    ghost function Rest(): Delivery
      requires Valid()
      reads this, Footprint()
    {
      if failed then Delivery([], OutputLimit)
      else
        var rest := Deliver(rules, Input(), source.fate);
        Delivery(pending + rest.bytes, rest.error)
    }

    /** The loop around ReadSlice: one line, or what there is of it when the input ends, put
        together from as many slices as it takes.  It stops as soon as the limit is passed. */
    method Assemble() returns (frame: seq<byte>, status: Slice)
      requires Valid() && reader != null
      modifies reader, reader.buf, source
      ensures Linked() && |frame| <= rules.limit
      ensures status.BufferFull? ==> Deliver(rules, old(Input()), source.fate) == Delivery([], OutputLimit)
      ensures !status.BufferFull? ==>
                && old(Input()) == frame + Input() && OneLine(frame)
                && if status.Complete? then Terminated(frame)
                   else !Terminated(frame) && Input() == [] && status.fate == source.fate
    {
      frame := [];
      while true
        invariant Linked() && |frame| <= rules.limit && OneLine(frame) && !Terminated(frame)
        invariant old(Input()) == frame + Input()
        decreases |Input()|
      {
        var lo, hi, slice := reader.ReadSlice();
        var chunk := reader.buf[lo..hi];
        ghost var rest := Input();
        Extend(frame, chunk, rest);
        if |frame| + |chunk| > rules.limit {
          DeliverTooLong(rules, frame + chunk, rest, source.fate);
          return frame, BufferFull;
        }
        frame := frame + chunk;
        if !slice.BufferFull? {
          return frame, slice;
        }
      }
    }

    /** What becomes of a line: it is pending, or the reader has failed or ended. */
    method Judge(frame: seq<byte>, status: Slice, ghost all: Delivery) returns (err: Option<Error>)
      requires Linked() && !failed && pending == [] && !eof && |frame| <= rules.limit && OneLine(frame)
      requires match status
               case Complete => Terminated(frame)
               case BufferFull => false
               case Stopped(fate) => !Terminated(frame) && Input() == [] && fate == source.fate
      requires all == Deliver(rules, frame + Input(), source.fate)
      modifies this`failed, this`pending, this`eof
      ensures Valid()
      ensures if err.Some? then
                && all == Delivery([], err.value) && Rest() == Delivery([], AfterError(err.value))
                && if err.value.EndOfFile? then eof && pending == [] && !failed else failed
              else
                && !failed && pending != [] && Rest() == all
    {
      DeliverFrame(rules, frame, Input(), source.fate);
      if status.Stopped? && status.fate.Broken? {
        failed := true;
        return Some(ReadFailed(status.fate.code));
      }
      if status.Stopped? {
        eof := true;
        if |frame| == 0 {
          return Some(EndOfFile);
        }
      }
      if !rules.valid(frame) {
        failed := true;
        return Some(NotOneValue);
      }
      pending := frame;
      return None;
    }

    /** Set `pending` to the next line if it is good, or fail. */
    method NextFrame() returns (err: Option<Error>)
      requires Valid() && !failed && pending == [] && !eof && reader != null
      modifies this`failed, this`pending, this`eof, reader, reader.buf, source
      ensures Valid()
      ensures if err.Some? then
                && old(Rest()) == Delivery([], err.value)
                && Rest() == Delivery([], AfterError(err.value))
                && if err.value.EndOfFile? then eof && pending == [] && !failed else failed
              else
                && !failed && pending != [] && Rest() == old(Rest())
    {
      ghost var all := Deliver(rules, Input(), source.fate);
      assert Rest() == all;
      var frame, status := Assemble();
      if status.BufferFull? {
        failed := true;
        return Some(OutputLimit);
      }
      err := Judge(frame, status, all);
    }

    /** Nothing is pending: look for the next frame, unless the input has ended. */
    method Refill() returns (err: Option<Error>)
      requires Valid() && !failed && pending == []
      modifies this`failed, this`reader, this`pending, this`eof, Footprint()
      ensures Valid() && fresh(Footprint() - old(Footprint()))
      ensures if err.Some? then
                && old(Rest()) == Delivery([], err.value)
                && Rest() == Delivery([], AfterError(err.value))
                && if err.value.EndOfFile? then eof && pending == [] && !failed else failed
              else
                && !failed && pending != [] && Rest() == old(Rest())
    {
      if eof {
        return Some(EndOfFile);
      }
      if reader == null {
        reader := new BufferedReader(source);
      }
      err := NextFrame();
    }

    /** Hand out what fits of a waiting frame. */
    method HandOut(p: array<byte>) returns (n: nat)
      requires Valid() && p !in Footprint() && !failed && pending != [] && p.Length > 0
      modifies this`pending, p
      ensures Valid() && 0 < n <= p.Length && Takes(old(Rest()), p[..n], Rest())
    {
      n := Copy(p, pending);
      TakesFront(pending, n, Deliver(rules, Input(), source.fate));
      pending := pending[n..];
    }

    /** Read.  Whatever the size of `p`, it delivers the next bytes of `Rest`; an error comes
        only when there are none left, and is the error of `Rest`. */
    method Read(p: array<byte>) returns (n: nat, err: Option<Error>)
      requires Valid() && p !in Footprint()
      modifies this`failed, this`reader, this`pending, this`eof, Footprint(), p
      ensures Valid() && fresh(Footprint() - old(Footprint())) && n <= p.Length
      ensures old(failed) ==> err == Some(OutputLimit)
      ensures err.None? ==> Takes(old(Rest()), p[..n], Rest()) && (p.Length > 0 ==> n > 0)
      ensures err.Some? ==>
                && n == 0 && old(Rest()) == Delivery([], err.value)
                && Rest() == Delivery([], if err.value.EndOfFile? then EndOfFile else OutputLimit)
      ensures err == Some(EndOfFile) ==> eof && pending == [] && !failed
      ensures old(eof && pending == [] && !failed) && p.Length > 0 ==> err == Some(EndOfFile)
      ensures err.Some? && err != Some(EndOfFile) ==> failed
    {
      if failed {
        return 0, Some(OutputLimit);
      }
      if p.Length == 0 {
        return 0, None;
      }
      if |pending| == 0 {
        err := Refill();
        if err.Some? {
          return 0, err;
        }
      }
      n := HandOut(p);
      return n, None;
    }
  }

  /** One read with a buffer of any size but none. */
  method ReadSome(b: LineBound) returns (bytes: seq<byte>, err: Option<Error>)
    requires b.Valid()
    modifies b, b.Footprint()
    ensures b.Valid() && fresh(b.Footprint() - old(b.Footprint()))
    ensures err.None? ==> Takes(old(b.Rest()), bytes, b.Rest()) && bytes != []
    ensures err.Some? ==>
              && old(b.Rest()) == Delivery([], err.value)
              && b.Rest() == Delivery([], AfterError(err.value))
  {
    var extra: int := *;
    var p := new byte[if extra < 0 then 1 else extra + 1];
    var n;
    n, err := b.Read(p);
    bytes := p[..n];
  }

  /** Read to the end with buffers of any size. */
  method ReadAllLines(b: LineBound) returns (bytes: seq<byte>, error: Error)
    requires b.Valid()
    modifies b, b.Footprint()
    ensures b.Valid() && Delivery(bytes, error) == old(b.Rest())
    ensures b.Rest() == Delivery([], if error.EndOfFile? then EndOfFile else OutputLimit)
  {
    ghost var total := b.Rest();
    bytes := [];
    while true
      invariant b.Valid() && fresh(b.Footprint() - old(b.Footprint()))
      invariant Takes(total, bytes, b.Rest())
      decreases |b.Rest().bytes|
    {
      ghost var before := b.Rest();
      var more, err := ReadSome(b);
      if err.Some? {
        return bytes, err.value;
      }
      TakesTwice(total, bytes, before, more, b.Rest());
      bytes := bytes + more;
    }
  }

  // --- totalBound ---------------------------------------------------------------------------

  /** The whole body, or exactly its first `limit` bytes and then the limit error. */
  function Capped(limit: nat, data: seq<byte>, fate: Fate): Delivery {
    if |data| <= limit then Delivery(data, Ending(fate)) else Delivery(data[..limit], OutputLimit)
  }

  lemma CappedTakes(limit: nat, input: seq<byte>, fate: Fate, got: nat)
    requires got <= |input| && got <= limit + 1
    ensures if got > limit then Takes(Capped(limit, input, fate), input[..got][..limit], Delivery([], OutputLimit))
            else Takes(Capped(limit, input, fate), input[..got], Capped(limit - got, input[got..], fate))
  {
  }

  class TotalBound {
    const source: Source
    var remaining: nat
    var failed: bool

    constructor (source: Source, limit: nat)
      requires source.Valid()
      ensures this.source == source && Valid() && Rest() == Capped(limit, source.Rest(), source.fate)
    {
      this.source, remaining, failed := source, limit, false;
    }

    ghost predicate Valid()
      reads this, source
    {
      source.Valid()
    }

    ghost function Rest(): Delivery
      requires Valid()
      reads this, source
    {
      if failed then Delivery([], OutputLimit) else Capped(remaining, source.Rest(), source.fate)
    }

    /** Read probes one byte beyond the budget, and never hands that byte out. */
    method Read(p: array<byte>) returns (n: nat, err: Option<Error>)
      requires Valid()
      modifies this`remaining, this`failed, source, p
      ensures Valid() && n <= p.Length && Takes(old(Rest()), p[..n], Rest())
      ensures old(failed) ==> err == Some(OutputLimit)
      ensures err.None? && p.Length > 0 ==> n > 0
      ensures err.Some? ==> Rest() == Delivery([], err.value)
      ensures !old(failed) ==> n + remaining == old(remaining) && p[..n] == old(source.Rest())[..n]
      ensures !old(failed) && failed ==> |old(source.Rest())| > n && n == old(remaining)
      ensures failed <==> err == Some(OutputLimit)
      ensures !old(failed) && !failed ==> source.Rest() == old(source.Rest())[n..]
    {
      if failed {
        return 0, Some(OutputLimit);
      }
      var room := if p.Length > remaining + 1 then remaining + 1 else p.Length;
      var got, e := source.Read(p, 0, room);
      ghost var input := old(source.Rest());
      assert p[..got] == input[..got];
      CappedTakes(remaining, input, source.fate, got);
      if got > remaining {
        n := remaining;
        remaining, failed := 0, true;
        assert p[..n] == input[..got][..n];
        return n, Some(OutputLimit);
      }
      n, remaining := got, remaining - got;
      err := if e.None? then None else Some(Ending(e.value));
    }
  }

  /** Read to the end with buffers of any size. */
  method ReadAllBody(b: TotalBound) returns (bytes: seq<byte>, error: Error)
    requires b.Valid()
    modifies b, b.source
    ensures b.Valid() && Delivery(bytes, error) == old(b.Rest())
    ensures b.Rest() == Delivery([], error)
    ensures !old(b.failed) && |old(b.source.Rest())| <= old(b.remaining) ==>
              && bytes == old(b.source.Rest())
              && error == if b.source.fate.Eof? then EndOfFile else ReadFailed(b.source.fate.code)
    ensures !old(b.failed) && |old(b.source.Rest())| > old(b.remaining) ==>
              bytes == old(b.source.Rest())[..old(b.remaining)] && error == OutputLimit
  {
    bytes := [];
    while true
      invariant b.Valid()
      invariant Takes(old(b.Rest()), bytes, b.Rest())
      decreases |b.Rest().bytes|
    {
      var extra: int := *;
      var p := new byte[if extra < 0 then 1 else extra + 1];
      ghost var before := b.Rest();
      var n, err := b.Read(p);
      TakesTwice(old(b.Rest()), bytes, before, p[..n], b.Rest());
      bytes := bytes + p[..n];
      if err.Some? {
        return bytes, err.value;
      }
    }
  }
}
