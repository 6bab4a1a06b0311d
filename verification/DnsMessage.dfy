/** `DnsMessage.Question`, `IsResponseTo` and `Failure`
    (src/EasyTierHost.Core/DnsMessage.cs). An `IOException` is `None`. */
module DnsMessage {
  import opened Options
  import opened DnsName

  const MAX_ROUNDS: nat := 128
  const MAX_LABEL_BYTES: nat := 254

  function U16(p: seq<byte>, o: nat): nat
    requires o + 1 < |p|
  {
    256 * p[o] as int + p[o + 1] as int
  }

  // ------------------------------------------------------------ question key

  function Lower(b: byte): byte {
    if 65 <= b <= 90 then b + 32 else b
  }

  /** Two octets fold together exactly if they are equal or the two cases of one ASCII letter. */
  lemma FoldsTogether(a: byte, b: byte)
    ensures Lower(a) == Lower(b) <==>
              a == b || (65 <= a <= 90 && b == a + 32) || (65 <= b <= 90 && a == b + 32)
  {
  }

  function LowerLabel(l: Label): (r: Label)
    ensures |r| == |l|
    ensures forall i :: 0 <= i < |l| ==> r[i] == Lower(l[i])
  {
    seq(|l|, i requires 0 <= i < |l| => Lower(l[i]))
  }

  function LowerAll(labels: seq<Label>): (r: seq<Label>)
    ensures |r| == |labels|
    ensures forall i :: 0 <= i < |labels| ==> r[i] == LowerLabel(labels[i])
  {
    seq(|labels|, i requires 0 <= i < |labels| => LowerLabel(labels[i]))
  }

  function HexDigit(n: nat): (c: char)
    requires n < 16
    ensures c != ':'
  {
    if n < 10 then ('0' as int + n) as char else ('A' as int + (n - 10)) as char
  }

  function Hex(bytes: seq<byte>): (s: string)
    ensures |s| == 2 * |bytes|
    ensures ':' !in s
  {
    if bytes == [] then ""
    else Hex(bytes[..|bytes| - 1]) + [HexDigit(bytes[|bytes| - 1] / 16), HexDigit(bytes[|bytes| - 1] % 16)]
  }

  /** A length octet in decimal. */
  function Decimal(n: nat): (s: string)
    requires n < 64
    ensures ':' !in s
  {
    if n < 10 then [('0' as int + n) as char] else [('0' as int + n / 10) as char, ('0' as int + n % 10) as char]
  }

  function LabelKey(l: Label): string
    requires |l| < 64
  {
    Decimal(|l|) + ":" + Hex(l) + "/"
  }

  ghost predicate Short(labels: seq<Label>) {
    forall i :: 0 <= i < |labels| ==> |labels[i]| < 64
  }

  function LabelsKey(labels: seq<Label>): string
    requires forall i :: 0 <= i < |labels| ==> |labels[i]| < 64
  {
    if labels == [] then "" else LabelKey(labels[0]) + LabelsKey(labels[1..])
  }

  /** The text by which two questions are compared. */
  function Key(labels: seq<Label>, tail: seq<byte>): string
    requires forall i :: 0 <= i < |labels| ==> |labels[i]| < 64
  {
    LabelsKey(labels) + Hex(tail)
  }

  lemma HexDigitInjective(m: nat, n: nat)
    requires m < 16 && n < 16
    ensures HexDigit(m) == HexDigit(n) <==> m == n
  {
  }

  lemma {:induction false} HexInjective(a: seq<byte>, b: seq<byte>)
    requires Hex(a) == Hex(b)
    ensures a == b
    decreases |a|
  {
    assert |Hex(a)| == 2 * |a| && |Hex(b)| == 2 * |b|;
    if a != [] {
      var n := |a| - 1;
      var x, y := a[n], b[n];
      assert Hex(a)[..2 * n] == Hex(a[..n]) && Hex(b)[..2 * n] == Hex(b[..n]);
      assert Hex(a)[2 * n] == HexDigit(x / 16) && Hex(b)[2 * n] == HexDigit(y / 16);
      assert Hex(a)[2 * n + 1] == HexDigit(x % 16) && Hex(b)[2 * n + 1] == HexDigit(y % 16);
      HexDigitInjective(x / 16, y / 16);
      HexDigitInjective(x % 16, y % 16);
      HexInjective(a[..n], b[..n]);
      assert a == a[..n] + [x] && b == b[..n] + [y];
    }
  }

  lemma DecimalInjective(m: nat, n: nat)
    requires m < 64 && n < 64 && Decimal(m) == Decimal(n)
    ensures m == n
  {
    if m >= 10 {
      assert Decimal(m)[0] == Decimal(n)[0] && Decimal(m)[1] == Decimal(n)[1];
    } else {
      assert Decimal(m)[0] == Decimal(n)[0];
    }
  }

  /** Text before the first colon is determined. */
  lemma SplitAtColon(a: string, x: string, b: string, y: string)
    requires ':' !in a && ':' !in b
    requires a + ":" + x == b + ":" + y
    ensures a == b && x == y
  {
    var s, t := a + ":" + x, b + ":" + y;
    assert s[|a|] == ':' && t[|b|] == ':';
    assert forall i :: 0 <= i < |a| ==> s[i] == a[i] && a[i] in a;
    assert forall i :: 0 <= i < |b| ==> t[i] == b[i] && b[i] in b;
    assert s[..|a|] == a && t[..|b|] == b;
    assert s[|a| + 1..] == x && t[|b| + 1..] == y;
  }

  /** The comparison text is injective: it is equal exactly for equal label lists and equal
      type and class. */
  lemma {:induction false} KeyInjective(a: seq<Label>, s: seq<byte>, b: seq<Label>, t: seq<byte>)
    requires Short(a) && Short(b) && |s| == 4 && |t| == 4
    ensures Key(a, s) == Key(b, t) <==> a == b && s == t
    decreases |a|
  {
    hide Key, Hex, Decimal;
    ColonInKey(a, s);
    ColonInKey(b, t);
    if Key(a, s) == Key(b, t) {
      if a == [] {
        KeyOfNothing(s);
        KeyOfNothing(t);
        HexInjective(s, t);
      } else {
        KeyUnfolds(a, s);
        KeyUnfolds(b, t);
        var x := Hex(a[0]) + "/" + Key(a[1..], s);
        var y := Hex(b[0]) + "/" + Key(b[1..], t);
        SplitAtColon(Decimal(|a[0]|), x, Decimal(|b[0]|), y);
        DecimalInjective(|a[0]|, |b[0]|);
        var n := 2 * |a[0]|;
        assert x[..n] == Hex(a[0]) && y[..n] == Hex(b[0]);
        assert x[n + 1..] == Key(a[1..], s) && y[n + 1..] == Key(b[1..], t);
        HexInjective(a[0], b[0]);
        KeyInjective(a[1..], s, b[1..], t);
        assert a == [a[0]] + a[1..] && b == [b[0]] + b[1..];
      }
    }
  }

  lemma KeyOfNothing(tail: seq<byte>)
    ensures Key([], tail) == Hex(tail)
  {
  }

  lemma KeyUnfolds(labels: seq<Label>, tail: seq<byte>)
    requires Short(labels) && labels != []
    ensures Short(labels[1..])
    ensures Key(labels, tail) == Decimal(|labels[0]|) + ":" + (Hex(labels[0]) + "/" + Key(labels[1..], tail))
  {
  }

  lemma ColonInKey(labels: seq<Label>, tail: seq<byte>)
    requires Short(labels)
    ensures ':' in Key(labels, tail) <==> labels != []
  {
    if labels == [] {
      assert Key(labels, tail) == Hex(tail);
    } else {
      KeyUnfolds(labels, tail);
      assert Key(labels, tail)[|Decimal(|labels[0]|)|] == ':';
    }
  }

  // ----------------------------------------------------------------- question

  /** What `Question` reads: the labels folded to lower case, type and class, and the
      offset after them. */
  datatype Asked = Asked(labels: seq<Label>, tail: seq<byte>, end: nat)

  /** A packet has a readable question exactly when it announces one, its name decodes
      within 128 rounds and 254 octets, and type and class follow it. */
  function Parse(p: seq<byte>): (r: Option<Asked>)
    ensures r.Some? ==> 17 <= r.value.end <= |p| && |r.value.tail| == 4
  {
    if |p| < 12 || U16(p, 4) != 1 then None
    else
      var name := Decode(p, 12, MAX_ROUNDS);
      var after := SkipName(p, 12);
      if name.None? || LabelBytes(name.value.labels) > MAX_LABEL_BYTES || after.None? || after.value + 4 > |p| then None
      else Some(Asked(LowerAll(name.value.labels), p[after.value..after.value + 4], after.value + 4))
  }

  /** Decoded labels are short, so their key is defined. */
  lemma {:induction false} DecodedAreShort(p: seq<byte>, o: nat, fuel: nat)
    requires Decode(p, o, fuel).Some?
    ensures Short(Decode(p, o, fuel).value.labels)
    decreases fuel
  {
    if p[o] != 0 {
      DecodedAreShort(p, if IsPointer(p[o]) then Target(p, o) else o + 1 + p[o], fuel - 1);
    }
  }

  lemma AskedAreShort(p: seq<byte>)
    requires Parse(p).Some?
    ensures Short(Parse(p).value.labels)
  {
    DecodedAreShort(p, 12, MAX_ROUNDS);
  }

  function Prepend(front: seq<Label>, rounds: nat, rest: Option<Name>): Option<Name> {
    if rest.None? then None else Some(Name(front + rest.value.labels, rounds + rest.value.rounds))
  }

  /** The state of the loop in `Question`: it has come along `path` to `offset` and has
      collected `labels`; the name from here on is what is left to decode. */
  datatype Position = Position(
    offset: nat,
    consumed: int,
    hops: nat,
    visited: set<nat>,
    labels: seq<Label>,
    path: seq<nat>)

  ghost predicate Walking(p: seq<byte>, at: Position, max: nat) {
    && at.hops <= max
    && |at.path| == at.hops + 1 && at.path[at.hops] == at.offset && Walk(p, at.path)
    && (forall v :: v in at.visited ==> v in at.path[..at.hops])
    && Decode(p, 12, max) == Prepend(at.labels, at.hops, Decode(p, at.offset, max - at.hops))
    && SkipName(p, 12) == (if at.consumed >= 0 then Some(at.consumed) else SkipName(p, at.offset))
    && Short(at.labels)
  }

  const START := Position(12, -1, 0, {}, [], [12])

  lemma WalkingStarts(p: seq<byte>, max: nat)
    ensures Walking(p, START, max)
  {
    var d := Decode(p, 12, max);
    if d.Some? {
      assert [] + d.value.labels == d.value.labels;
    }
  }

  /** Where the walk cannot go on, there is no name. */
  lemma WalkingStuck(p: seq<byte>, at: Position, max: nat)
    requires Walking(p, at, max)
    requires || at.offset >= |p| || at.offset in at.visited || at.hops == max
             || (p[at.offset] != 0 && Next(p, at.offset).None?)
    ensures Decode(p, 12, max).None?
  {
    if at.offset in at.visited {
      var i :| 0 <= i < at.hops && at.path[i] == at.offset;
      LoopHasNoName(p, at.path, i, at.hops, max - at.hops);
    }
  }

  /** Following a pointer. */
  lemma WalkingJumps(p: seq<byte>, at: Position, max: nat)
    requires Walking(p, at, max) && at.hops < max
    requires at.offset + 1 < |p| && IsPointer(p[at.offset])
    ensures var to := Target(p, at.offset);
            Walking(p, Position(to, if at.consumed < 0 then at.offset + 2 else at.consumed, at.hops + 1,
                                at.visited + {at.offset}, at.labels, at.path + [to]), max)
  {
    WalkExtends(p, at.path, Target(p, at.offset));
    VisitedExtends(at, Target(p, at.offset));
  }

  /** Taking a label. */
  lemma WalkingReads(p: seq<byte>, at: Position, max: nat)
    requires Walking(p, at, max) && at.hops < max
    requires at.offset < |p| && 0 < p[at.offset] < 64 && at.offset + 1 + p[at.offset] <= |p|
    ensures var to := at.offset + 1 + p[at.offset];
            Walking(p, Position(to, at.consumed, at.hops + 1, at.visited + {at.offset},
                                at.labels + [p[at.offset + 1..to]], at.path + [to]), max)
  {
    var to := at.offset + 1 + p[at.offset];
    var l := p[at.offset + 1..to];
    WalkExtends(p, at.path, to);
    VisitedExtends(at, to);
    var d := Decode(p, to, max - at.hops - 1);
    if d.Some? {
      assert at.labels + ([l] + d.value.labels) == at.labels + [l] + d.value.labels;
    }
  }

  lemma WalkExtends(p: seq<byte>, path: seq<nat>, to: nat)
    requires Walk(p, path) && path != [] && Next(p, path[|path| - 1]) == Some(to)
    ensures Walk(p, path + [to])
  {
  }

  lemma VisitedExtends(at: Position, to: nat)
    requires |at.path| == at.hops + 1 && at.path[at.hops] == at.offset
    requires forall v :: v in at.visited ==> v in at.path[..at.hops]
    ensures forall v :: v in at.visited + {at.offset} ==> v in (at.path + [to])[..at.hops + 1]
  {
    assert (at.path + [to])[..at.hops + 1] == at.path[..at.hops] + [at.offset];
  }

  /** Reaching the closing zero. */
  lemma WalkingEnds(p: seq<byte>, at: Position, max: nat)
    requires Walking(p, at, max) && at.hops < max && at.offset < |p| && p[at.offset] == 0
    ensures Decode(p, 12, max) == Some(Name(at.labels, at.hops + 1))
    ensures SkipName(p, 12) == Some(if at.consumed < 0 then at.offset + 1 else at.consumed)
  {
    assert at.labels + [] == at.labels;
  }

  /** What has been collected stays part of the name. */
  lemma WalkingGrows(p: seq<byte>, at: Position, max: nat)
    requires Walking(p, at, max) && Decode(p, 12, max).Some?
    ensures LabelBytes(at.labels) <= LabelBytes(Decode(p, 12, max).value.labels)
  {
    LabelBytesSum(at.labels, Decode(p, at.offset, max - at.hops).value.labels);
  }

  lemma {:induction false} LabelsKeyGrows(labels: seq<Label>, l: Label)
    requires Short(labels) && |l| < 64
    ensures Short(labels + [l])
    ensures LabelsKey(labels + [l]) == LabelsKey(labels) + LabelKey(l)
  {
    if labels == [] {
      assert labels + [l] == [l] && [l][1..] == [];
      assert LabelsKey([l]) == LabelKey(l) + LabelsKey([]);
    } else {
      assert (labels + [l])[1..] == labels[1..] + [l];
      LabelsKeyGrows(labels[1..], l);
      assert LabelsKey(labels) == LabelKey(labels[0]) + LabelsKey(labels[1..]);
    }
  }

  /** The bytes of one label, folded and written in hexadecimal. */
  method AppendLabel(p: seq<byte>, start: nat, size: nat) returns (text: string)
    requires start + size <= |p| && size < 64
    ensures text == LabelKey(LowerLabel(p[start..start + size]))
  {
    var l := p[start..start + size];
    text := Decimal(size) + ":";
    var i := 0;
    while i < size
      invariant 0 <= i <= size
      invariant text == Decimal(size) + ":" + Hex(LowerLabel(l)[..i])
    {
      var b := Lower(p[start + i]);
      assert LowerLabel(l)[..i + 1] == LowerLabel(l)[..i] + [b];
      text := text + [HexDigit(b / 16), HexDigit(b % 16)];
      i := i + 1;
    }
    assert LowerLabel(l)[..i] == LowerLabel(l);
    text := text + "/";
  }

  /** `Question`: on every byte string it stops after at most 128 rounds, reads nothing out
      of range, and succeeds exactly when `Parse` does, with the key of what was asked. */
  method Question(p: seq<byte>) returns (r: Option<(string, nat)>)
    ensures r.Some? <==> Parse(p).Some?
    ensures r.Some? ==> r.value.1 == Parse(p).value.end && Short(Parse(p).value.labels)
                        && r.value.0 == Key(Parse(p).value.labels, Parse(p).value.tail)
  {
    hide Decode, SkipName, Walking, LabelsKey, LabelKey, Hex, LabelBytes, LowerLabel, Target;
    if |p| < 12 || U16(p, 4) != 1 { return None; }
    var offset: nat, consumed: int, hops: nat, length: nat := 12, -1, 0, 0;
    var result := "";
    var visited: set<nat> := {};
    ghost var at := START;
    WalkingStarts(p, MAX_ROUNDS);
    NoLabels();
    while true
      invariant Walking(p, at, MAX_ROUNDS) && at.hops == hops <= MAX_ROUNDS
      invariant at.offset == offset && at.consumed == consumed && at.visited == visited
      invariant length == LabelBytes(at.labels) <= MAX_LABEL_BYTES
      invariant Short(at.labels) && result == LabelsKey(LowerAll(at.labels))
      decreases MAX_ROUNDS - hops
    {
      if offset >= |p| || offset in visited || hops + 1 > MAX_ROUNDS {
        WalkingStuck(p, at, MAX_ROUNDS);
        return None;
      }
      visited, hops := visited + {offset}, hops + 1;
      var size := p[offset];
      offset := offset + 1;
      if size == 0 {
        WalkingEnds(p, at, MAX_ROUNDS);
        break;
      }
      if IsPointer(size) {
        if offset >= |p| {
          WalkingStuck(p, at, MAX_ROUNDS);
          return None;
        }
        if consumed < 0 { consumed := offset + 1; }
        WalkingJumps(p, at, MAX_ROUNDS);
        offset := Target(p, offset - 1);
        at := Position(offset, consumed, hops, visited, at.labels, at.path + [offset]);
        continue;
      }
      if size > 63 || offset + size > |p| {
        WalkingStuck(p, at, MAX_ROUNDS);
        return None;
      }
      WalkingReads(p, at, MAX_ROUNDS);
      ghost var l := p[offset..offset + size];
      ghost var before := at.labels;
      at := Position(offset + size, consumed, hops, visited, at.labels + [l], at.path + [offset + size]);
      LabelBytesSum(before, [l]);
      OneLabel(l);
      length := length + size + 1;
      if length > MAX_LABEL_BYTES {
        if Decode(p, 12, MAX_ROUNDS).Some? { WalkingGrows(p, at, MAX_ROUNDS); }
        return None;
      }
      var text := AppendLabel(p, offset, size);
      LowerGrows(before, l);
      LabelsKeyGrows(LowerAll(before), LowerLabel(l));
      result := result + text;
      offset := offset + size;
    }
    var end := (if consumed < 0 then offset else consumed) + 4;
    if end > |p| { return None; }
    result := result + Hex(p[end - 4..end]);
    r := Some((result, end));
  }

  lemma NoLabels()
    ensures LabelBytes([]) == 0 && LabelsKey(LowerAll([])) == ""
  {
  }

  lemma OneLabel(l: Label)
    ensures LabelBytes([l]) == |l| + 1
  {
    assert [l][1..] == [];
  }

  lemma LowerGrows(labels: seq<Label>, l: Label)
    ensures LowerAll(labels + [l]) == LowerAll(labels) + [LowerLabel(l)]
    ensures |LowerLabel(l)| == |l|
    ensures Short(labels) ==> Short(LowerAll(labels))
  {
  }

  /** Acceptance in terms of the grammar alone: one question is announced, its name has at
      most 128 rounds and 254 octets, and four octets follow. */
  lemma ParseIsGrammar(p: seq<byte>, labels: seq<Label>, rounds: nat)
    requires NameAt(p, 12, labels, rounds)
    ensures SkipName(p, 12).Some?
    ensures Parse(p).Some? <==>
              |p| >= 12 && p[4] == 0 && p[5] == 1 && rounds <= 128 && LabelBytes(labels) <= 254
              && SkipName(p, 12).value + 4 <= |p|
    ensures Parse(p).Some? ==> Parse(p).value.labels == LowerAll(labels)
  {
    hide Decode, Reads;
    DecodeIsExact(p, 12, rounds, labels, rounds);
    SkipIsLocal(p, p, 12, rounds) by { ReadsWithin(p, 12, rounds); }
    DecodeIsExact(p, 12, MAX_ROUNDS, labels, rounds);
    var d := Decode(p, 12, MAX_ROUNDS);
    if d.Some? {
      DecodeIsExact(p, 12, MAX_ROUNDS, d.value.labels, d.value.rounds);
      DecodeIsExact(p, 12, rounds + d.value.rounds, labels, rounds);
      DecodeIsExact(p, 12, rounds + d.value.rounds, d.value.labels, d.value.rounds);
    }
  }

  /** Without a name of the grammar there is no question. */
  lemma ParseNeedsName(p: seq<byte>)
    requires Parse(p).Some?
    ensures exists labels, rounds :: NameAt(p, 12, labels, rounds)
  {
    hide Decode;
    var d := Decode(p, 12, MAX_ROUNDS).value;
    DecodeIsExact(p, 12, MAX_ROUNDS, d.labels, d.rounds);
  }

  /** Decoding reads only what is there. */
  lemma {:induction false} ReadsWithin(p: seq<byte>, o: nat, fuel: nat)
    requires Decode(p, o, fuel).Some?
    ensures Agree(p, p, Reads(p, o, fuel))
    decreases fuel
  {
    hide Reads;
    ReadsUnfolds(p, o, fuel);
    if Next(p, o).Some? {
      ReadsWithin(p, Next(p, o).value, fuel - 1);
    }
  }

  /** Two packets ask the same thing exactly when the texts `Question` returns are equal. */
  lemma SameKeySameQuestion(p: seq<byte>, q: seq<byte>)
    requires Parse(p).Some? && Parse(q).Some?
    ensures Short(Parse(p).value.labels) && Short(Parse(q).value.labels)
    ensures Key(Parse(p).value.labels, Parse(p).value.tail) == Key(Parse(q).value.labels, Parse(q).value.tail)
            <==> Parse(p).value.labels == Parse(q).value.labels && Parse(p).value.tail == Parse(q).value.tail
  {
    hide Parse;
    AskedAreShort(p);
    AskedAreShort(q);
    ParseTail(p);
    ParseTail(q);
    KeyInjective(Parse(p).value.labels, Parse(p).value.tail, Parse(q).value.labels, Parse(q).value.tail);
  }

  lemma ParseTail(p: seq<byte>)
    requires Parse(p).Some?
    ensures |Parse(p).value.tail| == 4
  {
  }

  // ---------------------------------------------------------------- responses

  /** `(b & 0x78)` as a number. */
  function Opcode(b: byte): nat {
    b / 8 % 16
  }

  /** `response` answers `query`: same transaction, response bit, same operation, and the
      same question up to the case of letters. */
  predicate Responds(query: seq<byte>, response: seq<byte>)
    requires |response| < 12 || |query| >= 3
  {
    && |response| >= 12
    && response[0] == query[0] && response[1] == query[1]
    && response[2] >= 128
    && Opcode(query[2]) == Opcode(response[2])
    && Parse(query).Some? && Parse(response).Some?
    && Parse(query).value.labels == Parse(response).value.labels
    && Parse(query).value.tail == Parse(response).value.tail
  }

  method IsResponseTo(query: seq<byte>, response: seq<byte>) returns (r: bool)
    requires |response| < 12 || |query| >= 3
    ensures r == Responds(query, response)
    ensures r <==>
              && |response| >= 12 && response[0] == query[0] && response[1] == query[1]
              && response[2] >= 128 && query[2] / 8 % 16 == response[2] / 8 % 16
              && Parse(query).Some? && Parse(response).Some?
              && Parse(query).value.labels == Parse(response).value.labels
              && Parse(query).value.tail == Parse(response).value.tail
  {
    hide Parse, Key;
    if |response| < 12 || response[0] != query[0] || response[1] != query[1] { return false; }
    if response[2] < 128 || Opcode(query[2]) != Opcode(response[2]) { return false; }
    var a := Question(query);
    if a.None? { return false; }
    var b := Question(response);
    if b.None? { return false; }
    SameKeySameQuestion(query, response);
    r := a.value.0 == b.value.0;
  }

  /** `(b & 0x79) | 0x80` */
  function ReplyFlags(b: byte): (r: byte)
    ensures r >= 128 && r / 8 % 16 == b / 8 % 16 && r / 2 % 4 == 0 && r % 2 == b % 2
  {
    128 + b / 8 % 16 * 8 + b % 2
  }

  function FailureOf(query: seq<byte>): Option<seq<byte>> {
    var asked := Parse(query);
    if asked.None? then None
    else Some(query[..2] + [ReplyFlags(query[2]), 0x82] + query[4..6] + [0, 0, 0, 0, 0, 0] + query[12..asked.value.end])
  }

  /** `Failure`: the question of the query with the response bit, SERVFAIL and no records. */
  method Failure(query: seq<byte>) returns (r: Option<seq<byte>>)
    ensures r == FailureOf(query)
    ensures r.Some? ==> |r.value| == Parse(query).value.end
                        && r.value[0] == query[0] && r.value[1] == query[1]
                        && r.value[2] == 128 + query[2] / 8 % 16 * 8 + query[2] % 2 && r.value[3] == 0x82
                        && r.value[4] == query[4] && r.value[5] == query[5]
                        && (forall i :: 6 <= i < 12 ==> r.value[i] == 0)
                        && (forall i :: 12 <= i < |r.value| ==> r.value[i] == query[i])
  {
    hide Parse;
    var asked := Question(query);
    if asked.None? { return None; }
    ParseEnd(query);
    var result := query[..asked.value.1];
    result := result[2 := ReplyFlags(query[2])][3 := 0x82];
    var i := 6;
    while i < 12
      invariant 6 <= i <= 12 && |result| == asked.value.1
      invariant result == query[..2] + [ReplyFlags(query[2]), 0x82] + query[4..6]
                          + Zeros(i - 6) + query[i..asked.value.1]
    {
      result := result[i := 0];
      i := i + 1;
    }
    assert Zeros(6) == [0, 0, 0, 0, 0, 0];
    r := Some(result);
  }

  function Zeros(n: nat): (r: seq<byte>)
    ensures |r| == n && forall i :: 0 <= i < n ==> r[i] == 0
  {
    if n == 0 then [] else Zeros(n - 1) + [0]
  }

  lemma ParseEnd(p: seq<byte>)
    requires Parse(p).Some?
    ensures 17 <= Parse(p).value.end <= |p|
  {
  }

  // ---------------------------------------------------------------- locality

  /** The name is spelled without the transaction number. */
  ghost predicate IdFree(p: seq<byte>) {
    forall i :: i in Reads(p, 12, MAX_ROUNDS) ==> 2 <= i
  }

  /** The name is spelled without the header fields that a failure overwrites. */
  ghost predicate FlagFree(p: seq<byte>) {
    forall i :: i in Reads(p, 12, MAX_ROUNDS) ==> i in {0, 1, 4, 5} || 12 <= i
  }

  /** The name is spelled before the end of the question. */
  ghost predicate SelfContained(p: seq<byte>)
    requires Parse(p).Some?
  {
    forall i :: i in Reads(p, 12, MAX_ROUNDS) ==> i < Parse(p).value.end
  }

  /** What is asked depends only on the question count, the bytes that decoding reads, and
      the four octets after the name. */
  lemma ParseIsLocal(p: seq<byte>, q: seq<byte>)
    requires Parse(p).Some?
    requires |q| >= Parse(p).value.end && q[4] == p[4] && q[5] == p[5]
    requires Agree(p, q, Reads(p, 12, MAX_ROUNDS))
    requires forall i :: Parse(p).value.end - 4 <= i < Parse(p).value.end ==> q[i] == p[i]
    ensures Parse(q) == Parse(p)
  {
    hide Decode, Reads, SkipName;
    DecodeIsLocal(p, q, 12, MAX_ROUNDS);
    SkipIsLocal(p, q, 12, MAX_ROUNDS);
    var end := Parse(p).value.end;
    assert q[end - 4..end] == p[end - 4..end];
  }
}
