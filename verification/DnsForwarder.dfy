/** `DnsForwarderService.ResolveAsync` (src/EasyTierHost.Gateway/DnsForwarderService.cs). */
module DnsForwarder {
  import opened Options
  import opened DnsName
  import opened DnsMessage

  /** What one exchange with an upstream brings: bytes, a caught exception, or an exception
      while the caller has asked to stop. */
  datatype Reply = Bytes(bytes: seq<byte>) | Failed | Cancelled

  /** The end of `ResolveAsync`: a message, an `IOException` for a bad query, or
      cancellation. */
  datatype Resolution = Answer(message: seq<byte>) | Rejected | Stopped

  predicate Askable(query: seq<byte>) {
    |query| >= 12 && query[2] < 128 && U16(query, 4) == 1 && Parse(query).Some?
  }

  function WithId(p: seq<byte>, id: (byte, byte)): (r: seq<byte>)
    requires |p| >= 2
    ensures |r| == |p| && r[0] == id.0 && r[1] == id.1
    ensures forall i :: 2 <= i < |p| ==> r[i] == p[i]
  {
    [id.0, id.1] + p[2..]
  }

  /** A reply that is passed on: it answers the forwarded query and is neither SERVFAIL nor
      REFUSED. */
  predicate Acceptable(forwarded: seq<byte>, reply: Reply)
    requires |forwarded| >= 12
  {
    reply.Bytes? && Responds(forwarded, reply.bytes) && reply.bytes[3] % 16 !in {2, 5}
  }

  /** The loop over the upstreams stops here. */
  predicate Decisive(forwarded: seq<byte>, reply: Reply)
    requires |forwarded| >= 12
  {
    reply.Cancelled? || Acceptable(forwarded, reply)
  }

  /** The reply that settles a query, if one does: the first decisive one. */
  ghost predicate SettledBy(forwarded: seq<byte>, replies: seq<Reply>, k: nat)
    requires |forwarded| >= 12
  {
    && k < |replies|
    && Decisive(forwarded, replies[k])
    && forall i :: 0 <= i < k ==> !Decisive(forwarded, replies[i])
  }

  /** Whether the passed-on reply responds to the query. If the forwarded query keeps the question
      of the query, or the passed-on reply that of the reply, it does exactly when both do. They
      do if their names are not spelled with the transaction numbers. */
  ghost predicate PassedOnRight(query: seq<byte>, id: (byte, byte), reply: seq<byte>, answer: seq<byte>)
    requires |query| >= 12
  {
    var queryKept, replyKept := Parse(WithId(query, id)) == Parse(query), Parse(answer) == Parse(reply);
    && (queryKept || replyKept ==> (Responds(query, answer) <==> queryKept && replyKept))
    && (IdFree(query) ==> queryKept)
    && (IdFree(reply) ==> replyKept)
  }

  /** Whether a SERVFAIL responds to the query: exactly when the name survives the failure. If the
      name is spelled without changed header fields, that is exactly when it does not run on
      behind its question. */
  ghost predicate FailureRight(query: seq<byte>, answer: seq<byte>)
    requires Askable(query)
  {
    && (FlagFree(query) ==> (Responds(query, answer) <==> SelfContained(query)))
    && (Responds(query, answer) <==> Survives(query, answer, 12, MAX_ROUNDS))
  }

  /** A query is refused exactly when it is not a question; otherwise the first acceptable
      reply in upstream order is returned under the client's own transaction number, and
      if there is none, SERVFAIL. When the answer responds to the query is said by
      `PassedOnRight` and `FailureRight`. */
  method Resolve(
      query: seq<byte>, id: (byte, byte), replies: seq<Reply>) returns (r: Resolution, ghost settled: Option<nat>)
    ensures r.Rejected? <==> !(|query| >= 12 && query[2] < 128 && query[4] == 0 && query[5] == 1 && Parse(query).Some?)
    ensures Askable(query) ==>
              var forwarded := WithId(query, id);
              match settled
              case Some(k) =>
                && SettledBy(forwarded, replies, k)
                && r == (if replies[k].Cancelled? then Stopped
                         else Answer(WithId(replies[k].bytes, (query[0], query[1]))))
              case None =>
                && (forall i :: 0 <= i < |replies| ==> !Decisive(forwarded, replies[i]))
                && FailureOf(query).Some? && r == Answer(FailureOf(query).value)
    ensures r.Answer? ==> |r.message| >= 12 && r.message[0] == query[0] && r.message[1] == query[1]
    ensures r.Answer? && settled.Some? ==>
              var reply := replies[settled.value].bytes;
              reply[0] == id.0 && reply[1] == id.1 && reply[3] % 16 != 2 && reply[3] % 16 != 5
    ensures r.Answer? && settled.None? ==>
              forall i :: 0 <= i < |replies| && replies[i].Bytes? && Responds(WithId(query, id), replies[i].bytes) ==>
                replies[i].bytes[3] % 16 == 2 || replies[i].bytes[3] % 16 == 5
    ensures r.Answer? && settled.Some? ==> PassedOnRight(query, id, replies[settled.value].bytes, r.message)
    ensures r.Answer? && settled.None? ==> FailureRight(query, r.message)
  {
    hide Parse, FailureOf, PassedOnRight, FailureRight;
    settled := None;
    if |query| < 12 || query[2] >= 128 || U16(query, 4) != 1 { return Rejected, settled; }
    var asked := Question(query);
    if asked.None? { return Rejected, settled; }
    var forwarded := WithId(query, id);
    var k := 0;
    while k < |replies|
      invariant 0 <= k <= |replies|
      invariant forall i :: 0 <= i < k ==> !Decisive(forwarded, replies[i])
    {
      match replies[k] {
        case Bytes(response) =>
          var responds := IsResponseTo(forwarded, response);
          if responds && response[3] % 16 != 2 && response[3] % 16 != 5 {
            PassedOnAnswers(query, id, replies[k]);
            return Answer(WithId(response, (query[0], query[1]))), Some(k);
          }
        case Cancelled =>
          return Stopped, Some(k);
        case Failed =>
      }
      k := k + 1;
    }
    var failure := Failure(query);
    FailureExists(query);
    FailureAnswers(query);
    r := Answer(failure.value);
  }

  lemma FailureExists(query: seq<byte>)
    requires Parse(query).Some?
    ensures FailureOf(query).Some?
    ensures |FailureOf(query).value| == Parse(query).value.end >= 17
  {
    ParseEnd(query);
  }

  /** The transaction number is no part of the question, whatever it is, exactly if the name is
      not spelled with it. */
  lemma IdIsNoQuestion(p: seq<byte>)
    requires Parse(p).Some?
    ensures IdFree(p) <==> forall id: (byte, byte) :: Parse(WithId(p, id)) == Parse(p)
  {
    hide Parse, Reads;
    ParseEnd(p);
    ReadsOfQuestion(p);
    if IdFree(p) {
      forall id: (byte, byte)
        ensures Parse(WithId(p, id)) == Parse(p)
      {
        ParseIsLocal(p, WithId(p, id));
      }
    } else {
      NoNameAtNumber(p);
    }
  }

  /** With the number (64, 64) a name that is spelled with the number is none. */
  lemma NoNameAtNumber(p: seq<byte>)
    requires Parse(p).Some? && !IdFree(p)
    ensures Parse(WithId(p, (64, 64))).None?
  {
    hide Decode, Reads;
    SpoiledName(p, WithId(p, (64, 64)), 12, MAX_ROUNDS);
  }

  lemma {:induction false} SpoiledName(p: seq<byte>, q: seq<byte>, o: nat, fuel: nat)
    requires Decode(p, o, fuel).Some? && exists i :: i in Reads(p, o, fuel) && i < 2
    requires |q| == |p| && (forall i :: 2 <= i < |p| ==> q[i] == p[i])
    requires forall i :: 0 <= i < 2 && i < |q| ==> q[i] == 64
    ensures Decode(q, o, fuel).None?
    decreases fuel
  {
    hide Reads;
    ReadsUnfolds(p, o, fuel);
    if o >= 2 {
      SpoiledName(p, q, Next(p, o).value, fuel - 1);
    }
  }

  /** Where the question ends does not depend on the transaction number. */
  lemma {:induction false} SkipSame(p: seq<byte>, q: seq<byte>, o: nat)
    requires |q| == |p| && 2 <= o && forall i :: 2 <= i < |p| ==> q[i] == p[i]
    ensures SkipName(q, o) == SkipName(p, o)
    decreases |p| - o
  {
    if o < |p| && p[o] != 0 && !IsPointer(p[o]) && o + 1 + p[o] <= |p| {
      SkipSame(p, q, o + 1 + p[o]);
    }
  }

  lemma SameExtent(p: seq<byte>, id: (byte, byte))
    requires Parse(p).Some? && Parse(WithId(p, id)).Some?
    ensures Parse(WithId(p, id)).value.tail == Parse(p).value.tail
    ensures Parse(WithId(p, id)).value.end == Parse(p).value.end
  {
    hide Decode;
    var q := WithId(p, id);
    SkipSame(p, q, 12);
    var after := SkipName(p, 12).value;
    assert p[after..after + 4] == q[after..after + 4];
  }

  lemma ReadsOfQuestion(p: seq<byte>)
    requires Parse(p).Some?
    ensures Agree(p, p, Reads(p, 12, MAX_ROUNDS))
  {
    hide Decode, Reads;
    ReadsWithin(p, 12, MAX_ROUNDS);
  }

  /** When a passed-on reply answers the client's query. */
  lemma PassedOnAnswers(query: seq<byte>, id: (byte, byte), reply: Reply)
    requires Askable(query) && Acceptable(WithId(query, id), reply)
    ensures PassedOnRight(query, id, reply.bytes, WithId(reply.bytes, (query[0], query[1])))
  {
    hide Parse, IdFree;
    IdIsNoQuestion(query);
    IdIsNoQuestion(reply.bytes);
    SameExtent(query, id);
    var back := WithId(reply.bytes, (query[0], query[1]));
    if Parse(back).Some? { SameExtent(reply.bytes, (query[0], query[1])); }
  }

  /** When a failure answers the query. */
  lemma FailureAnswers(query: seq<byte>)
    requires Askable(query)
    ensures FailureOf(query).Some? && |FailureOf(query).value| >= 12
    ensures FailureRight(query, FailureOf(query).value)
  {
    hide Parse, FlagFree, SelfContained, Survives, Responds;
    FailureExists(query);
    if FlagFree(query) { PlainFailureAnswers(query); }
    FailureSurvives(query);
  }

  lemma PlainFailureAnswers(query: seq<byte>)
    requires Askable(query) && FlagFree(query)
    ensures FailureOf(query).Some? && |FailureOf(query).value| >= 12
    ensures Responds(query, FailureOf(query).value) <==> SelfContained(query)
  {
    hide Parse, Reads;
    ParseEnd(query);
    ReadsOfQuestion(query);
    FailureExists(query);
    var f, end := FailureOf(query).value, Parse(query).value.end;
    assert forall i: nat :: i < end && (i in {0, 1, 4, 5} || 12 <= i) ==> f[i] == query[i];
    if SelfContained(query) {
      ParseIsLocal(query, f);
    }
    if Parse(f).Some? {
      ReadsOfQuestion(f);
      TruncatedReads(query, f);
    }
  }

  // ------------------------------------------------- names through the header

  /** The failure changes this byte of a query. */
  predicate Alters(p: seq<byte>, i: nat)
    requires |p| >= 12
  {
    i == 2 || (i == 3 && p[3] != 0x82) || (6 <= i < 12 && p[i] != 0)
  }

  /** The name from `o` on is the same after the failure `f`: the walk stays before the cut and
      meets no changed byte. It may meet one of the counts, now zero, as a pointer with no label
      behind it; and a pointer whose second byte is the flags may lead to the same name at
      another place. */
  ghost predicate Survives(p: seq<byte>, f: seq<byte>, o: nat, fuel: nat)
    requires |p| >= 12
    decreases fuel
  {
    && fuel > 0 && o < |f| <= |p|
    && if Alters(p, o) then 6 <= o && Decode(p, o, fuel).Some? && Decode(p, o, fuel).value.labels == []
       else if p[o] == 0 then true
       else if IsPointer(p[o]) then
         && o + 1 < |f|
         && if o == 1 then IsPointer(f[1]) && SameNames(p, Target(p, 1), f, Target(f, 1), fuel - 1)
            else !Alters(p, o + 1) && Survives(p, f, Target(p, o), fuel - 1)
       else
         && o + 1 + p[o] <= |f|
         && (forall i :: o < i < o + 1 + p[o] ==> !Alters(p, i))
         && Survives(p, f, o + 1 + p[o], fuel - 1)
  }

  /** `f` is what a failure makes of the query `p`, as far as names are concerned. */
  ghost predicate Failed(p: seq<byte>, f: seq<byte>) {
    && 17 <= |f| <= |p|
    && p[2] < 128 <= f[2] && (p[2] < 64 ==> f[2] < 192) && f[3] == 0x82
    && p[4] == 0 && p[5] == 1
    && (forall i :: 6 <= i < 12 ==> f[i] == 0)
    && (forall i :: 0 <= i < |f| && (i in {0, 1, 4, 5} || 12 <= i) ==> f[i] == p[i])
  }

  /** There are names at these places, and they are the same. */
  ghost predicate SameNames(p: seq<byte>, i: nat, f: seq<byte>, j: nat, fuel: nat) {
    && Decode(p, i, fuel).Some? && Decode(f, j, fuel).Some?
    && LowerAll(Decode(f, j, fuel).value.labels) == LowerAll(Decode(p, i, fuel).value.labels)
  }

  lemma LowerCons(a: Label, x: seq<Label>, b: Label, y: seq<Label>)
    ensures LowerAll([a] + x) == LowerAll([b] + y) <==> LowerLabel(a) == LowerLabel(b) && LowerAll(x) == LowerAll(y)
  {
    var u, v := LowerAll([a] + x), LowerAll([b] + y);
    assert u == [LowerLabel(a)] + LowerAll(x) && v == [LowerLabel(b)] + LowerAll(y);
    assert u[1..] == LowerAll(x) && v[1..] == LowerAll(y);
  }

  lemma {:induction false} SurvivesIsExact(p: seq<byte>, f: seq<byte>, o: nat, fuel: nat)
    requires Failed(p, f) && Decode(p, o, fuel).Some?
    ensures Survives(p, f, o, fuel) <==> SameNames(p, o, f, o, fuel)
    decreases fuel
  {
    hide Reads, LowerAll, LowerLabel, Span, Decode;
    if o >= |f| || Alters(p, o) || p[o] == 0 || (IsPointer(p[o]) && (o == 1 || o + 1 == |f|)) {
      LastSurvives(p, f, o, fuel);
    } else {
      ReadsUnfolds(p, o, fuel);
      var next := Next(p, o).value;
      assert f[o] == p[o];
      if IsPointer(p[o]) {
        PointerSurvives(p, f, o, fuel);
        SurvivesIsExact(p, f, next, fuel - 1);
      } else if next <= |f| {
        LabelSurvives(p, f, o, next, fuel);
        SurvivesIsExact(p, f, next, fuel - 1);
      } else {
        LabelCut(f, o, fuel);
      }
    }
  }

  /** Where the walk needs no further step. */
  lemma LastSurvives(p: seq<byte>, f: seq<byte>, o: nat, fuel: nat)
    requires Failed(p, f) && Decode(p, o, fuel).Some?
    requires o >= |f| || Alters(p, o) || p[o] == 0 || (IsPointer(p[o]) && (o == 1 || o + 1 == |f|))
    ensures Survives(p, f, o, fuel) <==> SameNames(p, o, f, o, fuel)
  {
    hide LowerAll;
    NoLabelsLower();
  }

  lemma LabelCut(f: seq<byte>, o: nat, fuel: nat)
    requires o < |f| && 0 < f[o] < 64 && o + 1 + f[o] > |f|
    ensures Decode(f, o, fuel).None?
  {
  }

  /** No pointer but that at offset 1 has a changed second byte alone. */
  lemma PointerSurvives(p: seq<byte>, f: seq<byte>, o: nat, fuel: nat)
    requires Failed(p, f) && Decode(p, o, fuel).Some? && o + 1 < |f| && !Alters(p, o) && IsPointer(p[o]) && o != 1
    ensures !Alters(p, o + 1)
    ensures SameNames(p, o, f, o, fuel) <==> SameNames(p, Target(p, o), f, Target(p, o), fuel - 1)
  {
    hide LowerAll;
    assert f[o] == p[o] && f[o + 1] == p[o + 1];
  }

  /** A name that starts with a label is the same exactly if the label and the rest are. */
  lemma LabelSurvives(p: seq<byte>, f: seq<byte>, o: nat, next: nat, fuel: nat)
    requires Failed(p, f) && o < |f| && 0 < p[o] < 64 && f[o] == p[o] && next == o + 1 + p[o] <= |f| && fuel > 0
    ensures SameNames(p, o, f, o, fuel) <==>
              SameNames(p, next, f, next, fuel - 1) && forall i :: o < i < next ==> !Alters(p, i)
  {
    hide LowerAll, LowerLabel;
    SameLabel(p, f, o + 1, next);
    var x, y := Decode(f, next, fuel - 1), Decode(p, next, fuel - 1);
    if x.Some? && y.Some? {
      LowerCons(f[o + 1..next], x.value.labels, p[o + 1..next], y.value.labels);
    }
  }

  lemma NoLabelsLower()
    ensures forall x :: LowerAll([]) == LowerAll(x) <==> x == []
  {
    forall x | LowerAll([]) == LowerAll(x)
      ensures x == []
    {
      assert |LowerAll(x)| == |x|;
    }
  }

  /** A label is the same after the failure exactly if no byte of it is changed. */
  lemma SameLabel(p: seq<byte>, f: seq<byte>, from: nat, to: nat)
    requires Failed(p, f) && from <= to <= |f|
    ensures LowerLabel(f[from..to]) == LowerLabel(p[from..to]) <==> forall i :: from <= i < to ==> !Alters(p, i)
  {
    var a, b := f[from..to], p[from..to];
    if i :| from <= i < to && Alters(p, i) {
      assert LowerLabel(a)[i - from] == Lower(f[i]) && LowerLabel(b)[i - from] == Lower(p[i]);
    } else {
      forall i | from <= i < to
        ensures f[i] == p[i]
      {
        assert !Alters(p, i);
      }
      assert a == b;
    }
  }

  lemma {:induction false} SkipCut(p: seq<byte>, f: seq<byte>, o: nat)
    requires |f| <= |p| && 12 <= o && forall i :: 12 <= i < |f| ==> f[i] == p[i]
    requires SkipName(p, o).Some? && SkipName(p, o).value <= |f|
    ensures SkipName(f, o) == SkipName(p, o)
    decreases |p| - o
  {
    if p[o] != 0 && !IsPointer(p[o]) {
      SkipCut(p, f, o + 1 + p[o]);
    }
  }

  lemma {:induction false} LowerBytes(labels: seq<Label>)
    ensures LabelBytes(LowerAll(labels)) == LabelBytes(labels)
  {
    if labels != [] {
      assert LowerAll(labels)[1..] == LowerAll(labels[1..]);
      LowerBytes(labels[1..]);
    }
  }

  lemma FailureIsFailed(query: seq<byte>)
    requires Askable(query) && FailureOf(query).Some?
    ensures Failed(query, FailureOf(query).value) && |FailureOf(query).value| == Parse(query).value.end
  {
    hide Parse;
    ParseEnd(query);
  }

  /** The failure answers exactly if the name survives it. */
  lemma FailureSurvives(query: seq<byte>)
    requires Askable(query)
    ensures FailureOf(query).Some? && |FailureOf(query).value| >= 12
    ensures Responds(query, FailureOf(query).value) <==> Survives(query, FailureOf(query).value, 12, MAX_ROUNDS)
  {
    hide Survives, Reads, LowerAll, FailureOf;
    FailureExists(query);
    FailureIsFailed(query);
    FailureHeader(query);
    var f := FailureOf(query).value;
    SurvivesIsExact(query, f, 12, MAX_ROUNDS);
    SameNameAnswers(query, f);
  }

  lemma FailureHeader(query: seq<byte>)
    requires Askable(query) && FailureOf(query).Some?
    ensures var f := FailureOf(query).value;
            |f| >= 12 && f[0] == query[0] && f[1] == query[1] && f[2] >= 128 && Opcode(query[2]) == Opcode(f[2])
  {
    hide Parse;
    ParseEnd(query);
  }

  /** The failure asks the same exactly if it has the same name. */
  lemma SameNameAnswers(query: seq<byte>, f: seq<byte>)
    requires Askable(query) && Failed(query, f) && |f| == Parse(query).value.end
    ensures SameNames(query, 12, f, 12, MAX_ROUNDS) <==>
              && Parse(f).Some?
              && Parse(f).value.labels == Parse(query).value.labels
              && Parse(f).value.tail == Parse(query).value.tail
  {
    hide Decode, LowerAll, SkipName;
    SkipCut(query, f, 12);
    var after := SkipName(query, 12).value;
    assert f[after..after + 4] == query[after..after + 4];
    var d, e := Decode(query, 12, MAX_ROUNDS), Decode(f, 12, MAX_ROUNDS);
    LowerBytes(d.value.labels);
    if e.Some? { LowerBytes(e.value.labels); }
  }

  /** If `p` is cut short, keeping the bytes its name is spelled with, and still has a name,
      then the cut did not matter. */
  lemma TruncatedReads(p: seq<byte>, f: seq<byte>)
    requires Parse(p).Some? && Parse(f).Some?
    requires forall i :: i in Reads(p, 12, MAX_ROUNDS) && i < |f| ==> i < |p| && f[i] == p[i]
    ensures forall i :: i in Reads(p, 12, MAX_ROUNDS) ==> i < |f|
  {
    hide Decode, Reads;
    CutReads(p, f, 12, MAX_ROUNDS);
  }

  lemma {:induction false} CutReads(p: seq<byte>, f: seq<byte>, o: nat, fuel: nat)
    requires Decode(p, o, fuel).Some? && Decode(f, o, fuel).Some?
    requires forall i :: i in Reads(p, o, fuel) && i < |f| ==> i < |p| && f[i] == p[i]
    ensures forall i :: i in Reads(p, o, fuel) ==> i < |f|
    decreases fuel
  {
    hide Reads;
    ReadsUnfolds(p, o, fuel);
    ReadsUnfolds(f, o, fuel);
    assert o in Span(o, Item(p, o));
    assert f[o] == p[o] && Item(f, o) == Item(p, o);
    if Next(p, o).Some? {
      if IsPointer(p[o]) { assert o + 1 in Span(o, Item(p, o)); }
      assert Next(f, o) == Next(p, o);
      CutReads(p, f, Next(p, o).value, fuel - 1);
    }
  }

  // The first exception is real: the two bytes of the transaction number can be made part
  // of the name, and then the answer to the forwarded query is no answer to the query.

  const HEADER_QUERY: seq<byte> := [0, 7, 0, 0, 0, 1, 0, 0, 0, 0, 0, 0, 192, 0, 0, 1, 0, 1]
  const HEADER_REPLY: seq<byte> := [1, 97, 128, 0, 0, 1, 0, 0, 0, 0, 0, 0, 1, 97, 0, 0, 1, 0, 1]

  lemma HeaderPointerFails()
    ensures var id: (byte, byte) := (1, 97);
            && Askable(HEADER_QUERY)
            && Acceptable(WithId(HEADER_QUERY, id), Bytes(HEADER_REPLY))
            && !Responds(HEADER_QUERY, WithId(HEADER_REPLY, (0, 7)))
            && !IdFree(HEADER_QUERY)
  {
    hide Parse, Reads, IdFree;
    HeaderQuestions();
    HeaderIsRead();
  }

  lemma HeaderQuestions()
    ensures Parse(HEADER_QUERY).Some? && Parse(HEADER_QUERY).value.labels == []
    ensures var p := WithId(HEADER_QUERY, (1, 97));
            Parse(p).Some? && Parse(p).value.labels == [LETTER_A] && Parse(p).value.tail == [0, 1, 0, 1]
    ensures var p := HEADER_REPLY;
            Parse(p).Some? && Parse(p).value.labels == [LETTER_A] && Parse(p).value.tail == [0, 1, 0, 1]
    ensures var p := WithId(HEADER_REPLY, (0, 7));
            Parse(p).Some? && Parse(p).value.labels == [LETTER_A]
  {
    hide Parse;
    AsksRoot(HEADER_QUERY);
    AsksHeader(WithId(HEADER_QUERY, (1, 97)));
    AsksA(HEADER_REPLY);
    AsksA(WithId(HEADER_REPLY, (0, 7)));
    assert WithId(HEADER_QUERY, (1, 97))[14..18] == [0, 1, 0, 1];
    assert HEADER_REPLY[15..19] == [0, 1, 0, 1];
  }

  lemma HeaderIsRead()
    ensures !IdFree(HEADER_QUERY)
  {
    hide Parse, Reads;
    AsksRoot(HEADER_QUERY);
    ReadsTarget(HEADER_QUERY);
  }

  // So are those of the SERVFAIL: a name that runs on behind its question, and one that is
  // spelled with the record counts.

  const RUNS_ON: seq<byte> := [0, 7, 0, 0, 0, 1, 0, 0, 0, 0, 0, 0, 192, 18, 0, 1, 0, 1, 0]
  const COUNTED: seq<byte> := [0, 7, 0, 0, 0, 1, 1, 97, 0, 0, 0, 0, 192, 6, 0, 1, 0, 1]

  lemma RunOnFails()
    ensures Askable(RUNS_ON) && FailureOf(RUNS_ON).Some?
    ensures !SelfContained(RUNS_ON) && !Responds(RUNS_ON, FailureOf(RUNS_ON).value)
  {
    hide Parse, Reads, FailureOf, Responds;
    AsksBehind(RUNS_ON);
    FailureAnswers(RUNS_ON);
    ReadsTarget(RUNS_ON);
    FailureExists(RUNS_ON);
    var f := FailureOf(RUNS_ON).value;
    assert !Survives(RUNS_ON, f, 18, MAX_ROUNDS - 1);
    assert !Survives(RUNS_ON, f, 12, MAX_ROUNDS);
  }

  lemma CountedNameFails()
    ensures Askable(COUNTED) && FailureOf(COUNTED).Some?
    ensures !FlagFree(COUNTED) && !Responds(COUNTED, FailureOf(COUNTED).value)
  {
    hide Parse, Reads, FailureOf, Responds, Decode;
    AsksCounts(COUNTED);
    FailureAnswers(COUNTED);
    ReadsTarget(COUNTED);
    DecodesLetter(COUNTED, MAX_ROUNDS - 1);
    FailureExists(COUNTED);
    var f := FailureOf(COUNTED).value;
    assert !Survives(COUNTED, f, 6, MAX_ROUNDS - 1);
    assert !Survives(COUNTED, f, 12, MAX_ROUNDS);
  }

  lemma DecodesLetter(p: seq<byte>, fuel: nat)
    requires |p| >= 12 && p[6] == 1 && p[8] == 0 && fuel >= 2
    ensures Decode(p, 6, fuel).Some? ==> Decode(p, 6, fuel).value.labels != []
  {
  }

  /** A name that is a pointer to a zero octet right behind the question. */
  lemma AsksBehind(p: seq<byte>)
    requires |p| == 19 && U16(p, 4) == 1 && p[12] == 192 && p[13] == 18 && p[18] == 0
    ensures Parse(p).Some? && Parse(p).value.end == 18
  {
    assert NameAt(p, 18, [], 1);
    assert NameAt(p, 12, [], 2);
    SmallName(p, [], 2, 14);
  }

  /** A name that is a pointer to the label "a" in the record counts. */
  lemma AsksCounts(p: seq<byte>)
    requires |p| == 18 && U16(p, 4) == 1 && p[12] == 192 && p[13] == 6 && p[6] == 1 && p[7] == 97 && p[8] == 0
    ensures Parse(p).Some? && Parse(p).value.end == 18
  {
    assert NameAt(p, 8, [], 1);
    assert p[7..8] == LETTER_A && [LETTER_A][1..] == [];
    assert NameAt(p, 6, [LETTER_A], 2);
    assert NameAt(p, 12, [LETTER_A], 3);
    OneLabel(LETTER_A);
    SmallName(p, [LETTER_A], 3, 14);
  }

  /** A name that is a pointer reads the octet the pointer leads to. */
  lemma ReadsTarget(p: seq<byte>)
    requires Parse(p).Some? && p[12] == 192
    ensures p[13] in Reads(p, 12, MAX_ROUNDS)
  {
    hide Decode, Reads;
    ReadsUnfolds(p, 12, MAX_ROUNDS);
    var to: nat := p[13];
    assert Next(p, 12) == Some(to);
    ReadsUnfolds(p, to, MAX_ROUNDS - 1);
    assert to in Span(to, Item(p, to));
  }

  const LETTER_A: Label := [97]

  /** A name that is a pointer to a zero octet at offset 0. */
  lemma AsksRoot(p: seq<byte>)
    requires |p| >= 18 && U16(p, 4) == 1 && p[12] == 192 && p[13] == 0 && p[0] == 0
    ensures Parse(p).Some? && Parse(p).value.labels == [] && Parse(p).value.tail == p[14..18]
  {
    assert NameAt(p, 0, [], 1);
    assert NameAt(p, 12, [], 2);
    SmallName(p, [], 2, 14);
  }

  /** A name that is a pointer to the label "a" in the transaction number. */
  lemma AsksHeader(p: seq<byte>)
    requires |p| >= 18 && U16(p, 4) == 1 && p[12] == 192 && p[13] == 0 && p[0] == 1 && p[1] == 97 && p[2] == 0
    ensures Parse(p).Some? && Parse(p).value.labels == [LETTER_A] && Parse(p).value.tail == p[14..18]
  {
    assert NameAt(p, 2, [], 1);
    assert p[1..2] == LETTER_A && [LETTER_A][1..] == [];
    assert NameAt(p, 0, [LETTER_A], 2);
    assert NameAt(p, 12, [LETTER_A], 3);
    OneLabel(LETTER_A);
    SmallName(p, [LETTER_A], 3, 14);
    assert LowerLabel(LETTER_A) == LETTER_A;
    assert LowerAll([LETTER_A]) == [LETTER_A];
  }

  /** The name "a", spelled out. */
  lemma AsksA(p: seq<byte>)
    requires |p| >= 19 && U16(p, 4) == 1 && p[12] == 1 && p[13] == 97 && p[14] == 0
    ensures Parse(p).Some? && Parse(p).value.labels == [LETTER_A] && Parse(p).value.tail == p[15..19]
  {
    assert NameAt(p, 14, [], 1);
    assert p[13..14] == LETTER_A && [LETTER_A][1..] == [];
    assert NameAt(p, 12, [LETTER_A], 2);
    OneLabel(LETTER_A);
    assert SkipName(p, 14) == Some(15);
    SmallName(p, [LETTER_A], 2, 15);
    assert LowerLabel(LETTER_A) == LETTER_A;
    assert LowerAll([LETTER_A]) == [LETTER_A];
  }

  lemma SmallName(p: seq<byte>, labels: seq<Label>, rounds: nat, after: nat)
    requires |p| >= 12 && U16(p, 4) == 1 && NameAt(p, 12, labels, rounds) && rounds <= 3
    requires LabelBytes(labels) <= MAX_LABEL_BYTES && SkipName(p, 12) == Some(after) && after + 4 <= |p|
    ensures Parse(p).Some? && Parse(p).value.labels == LowerAll(labels)
    ensures Parse(p).value.tail == p[after..after + 4] && Parse(p).value.end == after + 4
  {
    hide Decode;
    ParseIsGrammar(p, labels, rounds);
  }
}
