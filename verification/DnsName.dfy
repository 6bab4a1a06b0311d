/** Domain names on the wire (sections 3.1 and 4.1.4 of RFC 1035): what a name at some
    offset of a packet is, independently of how `DnsMessage` walks over it. */
module DnsName {
  import opened Options

  type byte = b: int | 0 <= b < 256

  type Label = seq<byte>

  /** `(size & 0xc0) == 0xc0` */
  predicate IsPointer(size: byte) {
    size >= 192
  }

  /** The target of the pointer whose two bytes stand at `o`. */
  function Target(p: seq<byte>, o: nat): nat
    requires o + 1 < |p| && IsPointer(p[o])
  {
    256 * (p[o] as int - 192) + p[o + 1] as int
  }

  /** Octets taken by the labels, each with its length octet. */
  function LabelBytes(labels: seq<Label>): nat {
    if labels == [] then 0 else |labels[0]| + 1 + LabelBytes(labels[1..])
  }

  lemma {:induction false} LabelBytesSum(a: seq<Label>, b: seq<Label>)
    ensures LabelBytes(a + b) == LabelBytes(a) + LabelBytes(b)
  {
    if a == [] {
      assert a + b == b;
    } else {
      assert (a + b)[1..] == a[1..] + b;
      LabelBytesSum(a[1..], b);
    }
  }

  /** The grammar: the bytes at `o` spell these labels, with `rounds` length octets and
      pointers on the way, the closing zero included. */
  ghost predicate NameAt(p: seq<byte>, o: nat, labels: seq<Label>, rounds: nat)
    decreases rounds
  {
    && rounds > 0
    && o < |p|
    && (if p[o] == 0 then labels == [] && rounds == 1
        else if IsPointer(p[o]) then o + 1 < |p| && NameAt(p, Target(p, o), labels, rounds - 1)
        else && p[o] < 64 && o + 1 + p[o] <= |p|
             && labels != [] && labels[0] == p[o + 1..o + 1 + p[o]]
             && NameAt(p, o + 1 + p[o], labels[1..], rounds - 1))
  }

  /** Decoding with at most `fuel` rounds. */
  datatype Name = Name(labels: seq<Label>, rounds: nat)

  function Decode(p: seq<byte>, o: nat, fuel: nat): (r: Option<Name>)
    ensures r.Some? ==> 0 < r.value.rounds <= fuel
    decreases fuel
  {
    if fuel == 0 || o >= |p| then None
    else if p[o] == 0 then Some(Name([], 1))
    else if IsPointer(p[o]) then
      if o + 1 >= |p| then None
      else match Decode(p, Target(p, o), fuel - 1)
           case None => None
           case Some(n) => Some(Name(n.labels, n.rounds + 1))
    else if p[o] > 63 || o + 1 + p[o] > |p| then None
    else match Decode(p, o + 1 + p[o], fuel - 1)
         case None => None
         case Some(n) => Some(Name([p[o + 1..o + 1 + p[o]]] + n.labels, n.rounds + 1))
  }

  /** Decoding is exact: it finds a name if and only if the grammar has one of at most
      `fuel` rounds, and then it finds that one. */
  lemma {:induction false} DecodeIsExact(p: seq<byte>, o: nat, fuel: nat, labels: seq<Label>, rounds: nat)
    ensures Decode(p, o, fuel) == Some(Name(labels, rounds)) <==> NameAt(p, o, labels, rounds) && rounds <= fuel
    decreases fuel + rounds
  {
    if fuel > 0 && o < |p| && p[o] != 0 && rounds > 0 {
      if IsPointer(p[o]) {
        if o + 1 < |p| {
          DecodeIsExact(p, Target(p, o), fuel - 1, labels, rounds - 1);
        }
      } else if p[o] < 64 && o + 1 + p[o] <= |p| {
        var next := o + 1 + p[o];
        var first := p[o + 1..next];
        if labels != [] {
          DecodeIsExact(p, next, fuel - 1, labels[1..], rounds - 1);
          assert labels == [labels[0]] + labels[1..];
        }
        var d := Decode(p, next, fuel - 1);
        if d.Some? {
          assert ([first] + d.value.labels)[1..] == d.value.labels;
        }
      }
    }
  }

  /** More fuel never changes a name that was found. */
  lemma {:induction false} DecodeMonotone(p: seq<byte>, o: nat, fuel: nat, more: nat)
    requires Decode(p, o, fuel).Some? && fuel <= more
    ensures Decode(p, o, more) == Decode(p, o, fuel)
    decreases fuel
  {
    if p[o] != 0 {
      DecodeMonotone(p, if IsPointer(p[o]) then Target(p, o) else o + 1 + p[o], fuel - 1, more - 1);
    }
  }

  // ------------------------------------------------------------------ loops

  /** Where the walk goes from `o`, if it goes on. */
  function Next(p: seq<byte>, o: nat): Option<nat> {
    if o >= |p| || p[o] == 0 then None
    else if IsPointer(p[o]) then if o + 1 < |p| then Some(Target(p, o)) else None
    else if p[o] < 64 && o + 1 + p[o] <= |p| then Some(o + 1 + p[o])
    else None
  }

  /** A walk: each offset leads to the next. */
  ghost predicate Walk(p: seq<byte>, path: seq<nat>) {
    forall i :: 0 <= i < |path| - 1 ==> Next(p, path[i]) == Some(path[i + 1])
  }

  lemma {:induction false} DecodeAlong(p: seq<byte>, path: seq<nat>, i: nat, j: nat, fuel: nat)
    requires Walk(p, path) && i <= j < |path|
    requires Decode(p, path[j], fuel).Some?
    ensures Decode(p, path[i], fuel + (j - i)).Some?
    ensures Decode(p, path[i], fuel + (j - i)).value.rounds == Decode(p, path[j], fuel).value.rounds + (j - i)
    decreases j - i
  {
    if i < j {
      DecodeAlong(p, path, i + 1, j, fuel);
      assert Next(p, path[i]) == Some(path[i + 1]);
    }
  }

  /** A walk that comes back to an offset never reaches the end of the name: the visited
      set of `Question` only ever rejects packets that have no name at all. */
  lemma LoopHasNoName(p: seq<byte>, path: seq<nat>, i: nat, j: nat, fuel: nat)
    requires Walk(p, path) && i < j < |path| && path[i] == path[j]
    ensures Decode(p, path[j], fuel).None?
  {
    if Decode(p, path[j], fuel).Some? {
      DecodeAlong(p, path, i, j, fuel);
      DecodeMonotone(p, path[j], fuel, fuel + (j - i));
      assert false;
    }
  }

  // --------------------------------------------------------------- extent

  /** The first offset after the name as it stands at `o`: after the closing zero or the
      first pointer. */
  function SkipName(p: seq<byte>, o: nat): (r: Option<nat>)
    ensures r.Some? ==> o < r.value
    decreases |p| - o
  {
    if o >= |p| then None
    else if p[o] == 0 then Some(o + 1)
    else if IsPointer(p[o]) then Some(o + 2)
    else if o + 1 + p[o] <= |p| then SkipName(p, o + 1 + p[o])
    else None
  }

  // ------------------------------------------------------------- locality

  function Span(a: nat, b: nat): (s: set<nat>)
    ensures forall i: nat :: i in s <==> a <= i < b
    decreases b - a
  {
    if a >= b then {} else {a} + Span(a + 1, b)
  }

  /** The positions that decoding from `o` reads. */
  function Reads(p: seq<byte>, o: nat, fuel: nat): set<nat>
    decreases fuel
  {
    if fuel == 0 || o >= |p| then {}
    else if p[o] == 0 then {o}
    else if IsPointer(p[o]) then
      if o + 1 >= |p| then {o} else {o, o + 1} + Reads(p, Target(p, o), fuel - 1)
    else if p[o] > 63 || o + 1 + p[o] > |p| then {o}
    else Span(o, o + 1 + p[o]) + Reads(p, o + 1 + p[o], fuel - 1)
  }

  /** `q` has the bytes of `p` at all these positions. */
  ghost predicate Agree(p: seq<byte>, q: seq<byte>, positions: set<nat>) {
    forall i :: i in positions ==> i < |p| && i < |q| && p[i] == q[i]
  }

  /** The bytes of the item at `o` itself, without what follows it. */
  function Item(p: seq<byte>, o: nat): nat
    requires o < |p|
  {
    if p[o] == 0 then o + 1 else if IsPointer(p[o]) then o + 2 else o + 1 + p[o]
  }

  lemma ReadsUnfolds(p: seq<byte>, o: nat, fuel: nat)
    requires Decode(p, o, fuel).Some?
    ensures o < |p| && Item(p, o) <= |p| && (p[o] != 0 ==> Next(p, o).Some?)
    ensures Next(p, o).None? ==> Reads(p, o, fuel) == Span(o, Item(p, o))
    ensures Next(p, o).Some? ==> Decode(p, Next(p, o).value, fuel - 1).Some?
    ensures Next(p, o).Some? ==> Reads(p, o, fuel) == Span(o, Item(p, o)) + Reads(p, Next(p, o).value, fuel - 1)
  {
  }

  /** The item at `o` is the same in a packet with the same bytes there. */
  lemma SameItem(p: seq<byte>, q: seq<byte>, o: nat)
    requires o < |p| && Item(p, o) <= |p| && Agree(p, q, Span(o, Item(p, o)))
    ensures o < |q| && p[o] == q[o] && Item(q, o) == Item(p, o) <= |q| && Next(q, o) == Next(p, o)
    ensures p[o..Item(p, o)] == q[o..Item(p, o)]
  {
    assert o in Span(o, Item(p, o)) && Item(p, o) - 1 in Span(o, Item(p, o));
    assert forall i: nat :: o <= i < Item(p, o) ==> i in Span(o, Item(p, o));
  }

  /** Decoding depends only on the bytes it reads. */
  lemma {:induction false} DecodeIsLocal(p: seq<byte>, q: seq<byte>, o: nat, fuel: nat)
    requires Decode(p, o, fuel).Some? && Agree(p, q, Reads(p, o, fuel))
    ensures Decode(q, o, fuel) == Decode(p, o, fuel)
    ensures Reads(q, o, fuel) == Reads(p, o, fuel)
    decreases fuel
  {
    hide Reads, Span;
    ReadsUnfolds(p, o, fuel);
    SameItem(p, q, o);
    if Next(p, o).Some? {
      var next := Next(p, o).value;
      DecodeIsLocal(p, q, next, fuel - 1);
      if !IsPointer(p[o]) {
        assert p[o + 1..next] == p[o..next][1..] && q[o + 1..next] == q[o..next][1..];
      }
    }
    ReadsUnfolds(q, o, fuel);
  }

  /** So does the extent of the name. */
  lemma {:induction false} SkipIsLocal(p: seq<byte>, q: seq<byte>, o: nat, fuel: nat)
    requires Decode(p, o, fuel).Some? && Agree(p, q, Reads(p, o, fuel))
    ensures SkipName(p, o).Some? && SkipName(q, o) == SkipName(p, o)
    ensures SkipName(p, o).value <= |p|
    decreases fuel
  {
    assert o in Reads(p, o, fuel);
    if p[o] != 0 && !IsPointer(p[o]) {
      var next := o + 1 + p[o];
      assert next - 1 in Reads(p, o, fuel);
      SkipIsLocal(p, q, next, fuel - 1);
    }
  }
}
