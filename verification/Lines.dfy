/** What a line-bounded stream is meant to deliver, as a function of the whole input: the
    newline-delimited frames of the stdio transport of the Model Context Protocol (revision
    2025-11-25), each bounded in length and valid alone. */
module Lines {
  newtype byte = x: int | 0 <= x < 256

  const NEWLINE: byte := 10

  /** How the input ends once all its bytes have been read. */
  datatype Fate = Eof | Broken(code: int)

  datatype Error = EndOfFile | OutputLimit | NotOneValue | ReadFailed(code: int)

  /** The configured bound and the validity check of one frame (RFC 8259 for the bridge). */
  datatype Rules = Rules(limit: nat, valid: seq<byte> -> bool)

  /** What reading to the end gives: bytes, then an error that is EndOfFile at best. */
  datatype Delivery = Delivery(bytes: seq<byte>, error: Error)

  /** The length of the first line, newline included; of all of `data` if it has none. */
  function LineLength(data: seq<byte>): (n: nat)
    ensures n <= |data|
    ensures data != [] ==> n > 0
    ensures forall i: nat :: i + 1 < n ==> data[i] != NEWLINE
    ensures n < |data| ==> n > 0 && data[n - 1] == NEWLINE
  {
    if data == [] then 0 else if data[0] == NEWLINE then 1 else 1 + LineLength(data[1..])
  }

  predicate Terminated(line: seq<byte>) {
    line != [] && line[|line| - 1] == NEWLINE
  }

  /** `line` holds no newline except perhaps at its end. */
  predicate OneLine(line: seq<byte>) {
    forall i: nat :: i + 1 < |line| ==> line[i] != NEWLINE
  }

  /** Line by line: a line is delivered once it is complete, within the limit and valid. */
  function Deliver(rules: Rules, data: seq<byte>, fate: Fate): Delivery
    decreases |data|
  {
    var line := data[..LineLength(data)];
    if |line| > rules.limit then Delivery([], OutputLimit)
    else if !Terminated(line) && fate.Broken? then Delivery([], ReadFailed(fate.code))
    else if line == [] then Delivery([], EndOfFile)
    else if !rules.valid(line) then Delivery([], NotOneValue)
    else
      var rest := Deliver(rules, data[|line|..], fate);
      Delivery(line + rest.bytes, rest.error)
  }

  // --- the same, said all at once ---------------------------------------------------------

  /** The lines of the input; the last one may lack its newline. */
  function Split(data: seq<byte>): (lines: seq<seq<byte>>)
    decreases |data|
  {
    if data == [] then [] else [data[..LineLength(data)]] + Split(data[LineLength(data)..])
  }

  function Join(lines: seq<seq<byte>>): seq<byte> {
    if lines == [] then [] else lines[0] + Join(lines[1..])
  }

  /** Nothing is lost or moved by splitting. */
  lemma {:induction false} JoinSplit(data: seq<byte>)
    ensures Join(Split(data)) == data
    decreases |data|
  {
    if data != [] {
      var n := LineLength(data);
      JoinSplit(data[n..]);
      assert data == data[..n] + data[n..];
    }
  }

  /** Only the last line can lack its newline, and a newline is nowhere else in a line. */
  lemma {:induction false} SplitShape(data: seq<byte>, k: nat)
    requires k < |Split(data)|
    ensures var line := Split(data)[k];
            && line != []
            && (k + 1 < |Split(data)| ==> line[|line| - 1] == 10)
            && forall i: nat :: i + 1 < |line| ==> line[i] != 10
    decreases |data|
  {
    if k > 0 {
      SplitShape(data[LineLength(data)..], k - 1);
    }
  }

  /** A line that passes alone. */
  predicate Good(rules: Rules, line: seq<byte>, fate: Fate) {
    |line| <= rules.limit && (Terminated(line) || fate.Eof?) && rules.valid(line)
  }

  /** Why a line does not pass: the length counts before the read error, which counts before validity. */
  function Fault(rules: Rules, line: seq<byte>, fate: Fate): Error {
    if |line| > rules.limit then OutputLimit
    else if !Terminated(line) && fate.Broken? then ReadFailed(fate.code)
    else NotOneValue
  }

  function Ending(fate: Fate): Error {
    if fate.Eof? then EndOfFile else ReadFailed(fate.code)
  }

  /** Good lines first, then one that is not. */
  lemma {:induction false} GoodPrefix(rules: Rules, data: seq<byte>, fate: Fate) returns (k: nat)
    ensures var lines, d := Split(data), Deliver(rules, data, fate);
            && k <= |lines| && d.bytes == Join(lines[..k])
            && (forall i: nat :: i < k ==> Good(rules, lines[i], fate))
            && (k < |lines| ==> !Good(rules, lines[k], fate) && d.error == Fault(rules, lines[k], fate))
            && (k == |lines| ==> d.error == Ending(fate))
    decreases |data|
  {
    var n := LineLength(data);
    var line, lines := data[..n], Split(data);
    if data == [] || !Good(rules, line, fate) {
      return 0;
    }
    var more := Split(data[n..]);
    var j := GoodPrefix(rules, data[n..], fate);
    k := j + 1;
    JoinFirst(line, more, j);
    assert forall i: nat :: i < |more| ==> lines[i + 1] == more[i];
  }

  lemma JoinFirst(line: seq<byte>, more: seq<seq<byte>>, j: nat)
    requires j <= |more|
    ensures Join(([line] + more)[..j + 1]) == line + Join(more[..j])
  {
    assert ([line] + more)[..j + 1] == [line] + more[..j];
    assert ([line] + more[..j])[1..] == more[..j];
  }

  /** MAIN: what is delivered is exactly the longest prefix of lines that each pass alone: within
      the limit, complete or at the very end, and valid.  Then comes the fault of the first line
      that does not (the length counts before the read error, which counts before validity), or
      the end of the input. */
  lemma DeliversLongestGoodPrefix(rules: Rules, data: seq<byte>, fate: Fate) returns (k: nat)
    ensures var lines, d := Split(data), Deliver(rules, data, fate);
            && k <= |lines| && d.bytes == Join(lines[..k])
            && (forall i: nat :: i < k ==>
                  && 0 < |lines[i]| <= rules.limit && rules.valid(lines[i])
                  && (lines[i][|lines[i]| - 1] == 10 || fate.Eof?))
            && (k < |lines| ==>
                  var line := lines[k];
                  line != [] && if |line| > rules.limit then d.error == OutputLimit
                                else if line[|line| - 1] != 10 && fate.Broken? then d.error == ReadFailed(fate.code)
                                else !rules.valid(line) && d.error == NotOneValue)
            && (k == |lines| ==> d.error == if fate.Eof? then EndOfFile else ReadFailed(fate.code))
  {
    k := GoodPrefix(rules, data, fate);
    forall i: nat | i < |Split(data)|
      ensures Split(data)[i] != []
    {
      SplitShape(data, i);
    }
  }

  /** The delivered bytes are a prefix of the input. */
  lemma {:induction false} DeliversPrefix(rules: Rules, data: seq<byte>, fate: Fate)
    ensures Deliver(rules, data, fate).bytes <= data
  {
    var k := DeliversLongestGoodPrefix(rules, data, fate);
    var lines := Split(data);
    JoinSplit(data);
    JoinAppends(lines[..k], lines[k..]);
    assert lines == lines[..k] + lines[k..];
  }

  lemma {:induction false} JoinAppends(a: seq<seq<byte>>, b: seq<seq<byte>>)
    ensures Join(a + b) == Join(a) + Join(b)
  {
    if a == [] {
      assert a + b == b;
    } else {
      JoinAppends(a[1..], b);
      assert (a + b)[1..] == a[1..] + b;
    }
  }

  /** The first line of `head + tail` when `head` has no newline except perhaps at its end. */
  lemma {:induction false} LineLengthOf(head: seq<byte>, tail: seq<byte>)
    requires OneLine(head)
    ensures Terminated(head) ==> LineLength(head + tail) == |head|
    ensures !Terminated(head) ==> LineLength(head + tail) == |head| + LineLength(tail)
  {
    if head == [] {
      assert head + tail == tail;
    } else {
      assert (head + tail)[1..] == head[1..] + tail;
      LineLengthOf(head[1..], tail);
    }
  }

  /** A first line that is already too long decides, whatever follows it. */
  lemma DeliverTooLong(rules: Rules, head: seq<byte>, tail: seq<byte>, fate: Fate)
    requires OneLine(head) && |head| > rules.limit
    ensures Deliver(rules, head + tail, fate) == Delivery([], OutputLimit)
  {
    LineLengthOf(head, tail);
  }

  /** The first line is known once its newline or the end of the input has been seen. */
  lemma DeliverFrame(rules: Rules, frame: seq<byte>, rest: seq<byte>, fate: Fate)
    requires OneLine(frame) && |frame| <= rules.limit && (Terminated(frame) || rest == [])
    ensures Deliver(rules, frame + rest, fate) ==
            if !Terminated(frame) && fate.Broken? then Delivery([], ReadFailed(fate.code))
            else if frame == [] then Delivery([], EndOfFile)
            else if !rules.valid(frame) then Delivery([], NotOneValue)
            else var d := Deliver(rules, rest, fate); Delivery(frame + d.bytes, d.error)
  {
    LineLengthOf(frame, rest);
    assert (frame + rest)[..|frame|] == frame && (frame + rest)[|frame|..] == rest;
  }

  /** A line under construction grows by a slice. */
  lemma Extend(frame: seq<byte>, chunk: seq<byte>, rest: seq<byte>)
    requires OneLine(frame) && !Terminated(frame) && OneLine(chunk)
    ensures OneLine(frame + chunk) && (Terminated(frame + chunk) <==> Terminated(chunk))
    ensures frame + (chunk + rest) == (frame + chunk) + rest
  {
    assert forall i: nat :: i < |frame| ==> frame[i] != NEWLINE;
  }
}
