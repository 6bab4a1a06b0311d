/** The answer scan (`DnsMessage.HasAddressAnswer`, src/EasyTierHost.Core/DnsMessage.cs)
    against the record format of section 4.1.3 of RFC 1035. */
module DnsAnswers {
  import opened Options
  import opened DnsName
  import opened DnsMessage
  import opened DnsQuery

  // ------------------------------------------------------------- the scan

  /** Step over an owner name; a pointer has to lead backwards. */
  function SkipOwner(p: seq<byte>, o: nat): (r: Option<nat>)
    ensures r.Some? ==> o < r.value <= |p|
    decreases |p| - o
  {
    if o >= |p| then None
    else if p[o] == 0 then Some(o + 1)
    else if IsPointer(p[o]) then
      if o + 1 >= |p| || Target(p, o) >= o then None else Some(o + 2)
    else if p[o] > 63 || o + 1 + p[o] >= |p| then None
    else SkipOwner(p, o + 1 + p[o])
  }

  predicate IsAddressData(kind: nat, dnsClass: nat, size: nat) {
    dnsClass == 1 && ((kind == 1 && size == 4) || (kind == 28 && size == 16))
  }

  /** An address record has its fixed part at `at`, and its data inside the packet. */
  predicate AddressAt(p: seq<byte>, at: nat) {
    && at + 10 <= |p|
    && at + 10 + U16(p, at + 8) <= |p|
    && IsAddressData(U16(p, at), U16(p, at + 2), U16(p, at + 8))
  }

  function Scan(p: seq<byte>, o: nat, count: nat): (r: bool)
    ensures r ==> exists at: nat :: o < at && AddressAt(p, at)
    decreases count
  {
    if count == 0 then false
    else
      var at := SkipOwner(p, o);
      if at.None? || at.value + 10 > |p| then false
      else
        var size := U16(p, at.value + 8);
        if at.value + 10 + size > |p| then false
        else if IsAddressData(U16(p, at.value), U16(p, at.value + 2), size) then
          assert AddressAt(p, at.value);
          true
        else Scan(p, at.value + 10 + size, count - 1)
  }

  /** What the scan of a whole packet amounts to. */
  function Scanned(p: seq<byte>): (r: bool)
    ensures r ==> exists at: nat :: 17 < at && AddressAt(p, at)
  {
    var asked := Parse(p);
    if asked.None? || U16(p, 6) > 128 then false
    else Scan(p, asked.value.end, U16(p, 6))
  }

  /** The inner loop of the scan. */
  method SkipOwnerName(response: seq<byte>, start: nat) returns (r: Option<nat>)
    ensures r == SkipOwner(response, start)
  {
    var offset := start;
    while true
      invariant start <= offset && SkipOwner(response, start) == SkipOwner(response, offset)
      decreases |response| - offset
    {
      if offset >= |response| { return None; }
      var size := response[offset];
      offset := offset + 1;
      if size == 0 { break; }
      if IsPointer(size) {
        if offset >= |response| || Target(response, offset - 1) >= offset - 1 { return None; }
        offset := offset + 1;
        break;
      }
      if size > 63 || offset + size >= |response| { return None; }
      offset := offset + size;
    }
    r := Some(offset);
  }

  /** `HasAddressAnswer`: total on arbitrary bytes, every read within the packet. */
  method HasAddressAnswer(response: seq<byte>) returns (r: bool)
    ensures r == Scanned(response)
  {
    hide Parse, SkipOwner;
    var asked := Question(response);
    if asked.None? { return false; }
    ParseEnd(response);
    var offset: nat := asked.value.1;
    var count := U16(response, 6);
    if count > 128 { return false; }
    var i := 0;
    while i < count
      invariant 0 <= i <= count
      invariant Scan(response, Parse(response).value.end, count) == Scan(response, offset, count - i)
    {
      var at := SkipOwnerName(response, offset);
      if at.None? { return false; }
      offset := at.value;
      if offset + 10 > |response| { return false; }
      var kind, dnsClass, size := U16(response, offset), U16(response, offset + 2), U16(response, offset + 8);
      offset := offset + 10;
      if offset + size > |response| { return false; }
      if dnsClass == 1 && ((kind == 1 && size == 4) || (kind == 28 && size == 16)) { return true; }
      offset := offset + size;
      i := i + 1;
    }
    r := false;
  }

  // ------------------------------------------------- the format of records

  /** A resource record; its owner name ends with a zero or with a pointer. */
  datatype Record = Record(
    labels: seq<Label>,
    pointer: Option<nat>,
    kind: nat,
    dnsClass: nat,
    ttl: seq<byte>,
    data: seq<byte>)

  predicate IsAddress(r: Record) {
    IsAddressData(r.kind, r.dnsClass, |r.data|)
  }

  function Word(n: nat): (r: seq<byte>)
    requires n < 0x1_0000
    ensures |r| == 2
  {
    [n / 256, n % 256]
  }

  ghost predicate WellFormed(r: Record, o: nat) {
    && Encodable(r.labels)
    && (r.pointer.Some? ==> r.pointer.value < 0x4000 && r.pointer.value < o + LabelBytes(r.labels))
    && r.kind < 0x1_0000 && r.dnsClass < 0x1_0000 && |r.ttl| == 4 && |r.data| < 0x1_0000
  }

  ghost function Ending(pointer: Option<nat>): (r: seq<byte>)
    requires pointer.Some? ==> pointer.value < 0x4000
    ensures |r| == if pointer.None? then 1 else 2
  {
    if pointer.None? then [0] else [192 + pointer.value / 256, pointer.value % 256]
  }

  ghost function Owner(r: Record, o: nat): (s: seq<byte>)
    requires WellFormed(r, o)
  {
    EncodeLabels(r.labels) + Ending(r.pointer)
  }

  ghost function Fixed(r: Record, o: nat): (s: seq<byte>)
    requires WellFormed(r, o)
    ensures |s| == 10
  {
    Word(r.kind) + Word(r.dnsClass) + r.ttl + Word(|r.data|)
  }

  ghost function Encode(r: Record, o: nat): (s: seq<byte>)
    requires WellFormed(r, o)
  {
    Owner(r, o) + (Fixed(r, o) + r.data)
  }

  /** Records that follow one another from offset `o`, each well-formed where it stands. */
  ghost predicate AllWellFormed(records: seq<Record>, o: nat)
    decreases |records|
  {
    records == [] ||
    (WellFormed(records[0], o) && AllWellFormed(records[1..], o + |Encode(records[0], o)|))
  }

  ghost function EncodeAll(records: seq<Record>, o: nat): seq<byte>
    requires AllWellFormed(records, o)
    decreases |records|
  {
    if records == [] then []
    else Encode(records[0], o) + EncodeAll(records[1..], o + |Encode(records[0], o)|)
  }

  // ------------------------------------------------------------ exactness

  lemma WordAt(p: seq<byte>, o: nat, n: nat)
    requires n < 0x1_0000 && At(p, o, Word(n))
    ensures o + 1 < |p| && U16(p, o) == n
  {
    assert p[o] == p[o..o + 2][0] && p[o + 1] == p[o..o + 2][1];
  }

  /** An owner name is stepped over exactly, unless it ends with a pointer to itself or beyond. */
  lemma {:induction false} SkipsOwner(p: seq<byte>, o: nat, labels: seq<Label>, pointer: Option<nat>)
    requires Encodable(labels) && (pointer.Some? ==> pointer.value < 0x4000)
    requires At(p, o, EncodeLabels(labels) + Ending(pointer))
    ensures SkipOwner(p, o) ==
            if pointer.Some? && pointer.value >= o + LabelBytes(labels) then None
            else Some(o + LabelBytes(labels) + |Ending(pointer)|)
    decreases |labels|
  {
    hide At, EncodeLabels, Ending, SkipOwner, LabelBytes;
    if labels == [] {
      NoLabelsEnding(pointer);
      SkipsEnding(p, o, pointer);
    } else {
      FirstLabelAt(p, o, labels, Ending(pointer));
      SkipsOwner(p, o + 1 + |labels[0]|, labels[1..], pointer);
      MoreFollows(p, o + 1 + |labels[0]|, EncodeLabels(labels[1..]) + Ending(pointer));
      SkipsLabel(p, o);
    }
  }

  lemma NoLabelsEnding(pointer: Option<nat>)
    requires pointer.Some? ==> pointer.value < 0x4000
    ensures LabelBytes([]) == 0 && EncodeLabels([]) + Ending(pointer) == Ending(pointer)
  {
  }

  lemma SkipsLabel(p: seq<byte>, o: nat)
    requires o < |p| && 0 < p[o] < 64 && o + 1 + p[o] < |p|
    ensures SkipOwner(p, o) == SkipOwner(p, o + 1 + p[o])
  {
  }

  lemma MoreFollows(p: seq<byte>, o: nat, s: seq<byte>)
    requires At(p, o, s) && s != []
    ensures o < |p|
  {
  }

  lemma SkipsEnding(p: seq<byte>, o: nat, pointer: Option<nat>)
    requires (pointer.Some? ==> pointer.value < 0x4000) && At(p, o, Ending(pointer))
    ensures SkipOwner(p, o) == if pointer.Some? && pointer.value >= o then None else Some(o + |Ending(pointer)|)
  {
    assert p[o] == p[o..o + |Ending(pointer)|][0];
    if pointer.Some? {
      assert p[o + 1] == p[o..o + 2][1];
      assert Target(p, o) == pointer.value;
    }
  }

  /** Such a pointer ends the scan, whatever follows. */
  lemma ForwardPointerEndsScan(p: seq<byte>, o: nat, labels: seq<Label>, pointer: nat, count: nat)
    requires Encodable(labels) && o + LabelBytes(labels) <= pointer < 0x4000
    requires At(p, o, EncodeLabels(labels) + Ending(Some(pointer)))
    ensures !Scan(p, o, count)
  {
    SkipsOwner(p, o, labels, Some(pointer));
  }

  /** The fixed part of a record is read back. */
  lemma ReadsFixed(p: seq<byte>, o: nat, r: Record, at: nat)
    requires WellFormed(r, o) && At(p, at, Fixed(r, o))
    ensures at + 10 <= |p|
    ensures U16(p, at) == r.kind && U16(p, at + 2) == r.dnsClass && U16(p, at + 8) == |r.data|
  {
    hide Word;
    AtSplits(p, at, Word(r.kind) + Word(r.dnsClass) + r.ttl, Word(|r.data|));
    AtSplits(p, at, Word(r.kind) + Word(r.dnsClass), r.ttl);
    AtSplits(p, at, Word(r.kind), Word(r.dnsClass));
    WordAt(p, at, r.kind);
    WordAt(p, at + 2, r.dnsClass);
    WordAt(p, at + 8, |r.data|);
  }

  /** One record in place: the scan sees its fixed part where it is, and what follows it. */
  lemma RecordInPlace(p: seq<byte>, o: nat, r: Record)
    requires WellFormed(r, o) && At(p, o, Encode(r, o))
    ensures SkipOwner(p, o) == Some(o + |Owner(r, o)|)
    ensures var at := o + |Owner(r, o)|;
            && at + 10 + |r.data| == o + |Encode(r, o)| <= |p|
            && U16(p, at) == r.kind && U16(p, at + 2) == r.dnsClass && U16(p, at + 8) == |r.data|
  {
    hide Fixed;
    AtSplits(p, o, Owner(r, o), Fixed(r, o) + r.data);
    SkipsOwner(p, o, r.labels, r.pointer);
    AtSplits(p, o + |Owner(r, o)|, Fixed(r, o), r.data);
    ReadsFixed(p, o, r, o + |Owner(r, o)|);
  }

  lemma {:induction false} ScanIsExact(p: seq<byte>, o: nat, records: seq<Record>)
    requires AllWellFormed(records, o) && At(p, o, EncodeAll(records, o))
    ensures Scan(p, o, |records|) <==> exists i :: 0 <= i < |records| && IsAddress(records[i])
    decreases |records|
  {
    hide Encode, U16, SkipOwner, At;
    if records != [] {
      var first := records[0];
      var next := o + |Encode(first, o)|;
      AtSplits(p, o, Encode(first, o), EncodeAll(records[1..], next));
      RecordInPlace(p, o, first);
      ScanIsExact(p, next, records[1..]);
      assert forall i :: 1 <= i < |records| ==> records[i] == records[1..][i - 1];
      assert forall i :: 0 <= i < |records[1..]| ==> records[1..][i] == records[i + 1];
    }
  }

  /** Sound and complete: in a message of one question and at most 128 well-formed answers,
      whatever comes after them, the scan finds an address exactly when an answer is an
      IN A record of 4 octets or an IN AAAA record of 16 (section 2.2 of RFC 3596). With
      more than 128 answers it finds none. */
  lemma AnswerScanIsExact(p: seq<byte>, labels: seq<Label>, tail: seq<byte>, records: seq<Record>)
    requires |p| >= 12 && U16(p, 4) == 1 && U16(p, 6) == |records| && |tail| == 4
    requires Encodable(labels) && LabelBytes(labels) <= MAX_LABEL_BYTES
    requires AllWellFormed(records, 12 + LabelBytes(labels) + 5)
    requires At(p, 12, EncodeLabels(labels) + [0] + tail + EncodeAll(records, 12 + LabelBytes(labels) + 5))
    ensures Scanned(p) <==>
              && |records| <= 128
              && (exists i ::
                    && 0 <= i < |records| && records[i].dnsClass == 1
                    && (|| (records[i].kind == 1 && |records[i].data| == 4)
                        || (records[i].kind == 28 && |records[i].data| == 16)))
  {
    hide Parse, Scan, EncodeLabels, EncodeAll, AllWellFormed;
    var o := 12 + LabelBytes(labels) + 5;
    AtSplits(p, 12, EncodeLabels(labels) + [0] + tail, EncodeAll(records, o));
    PlainQuestion(p, labels, tail);
    ScanIsExact(p, o, records);
  }
}
