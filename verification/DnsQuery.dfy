/** Building a query and reading it back (`DnsMessage.CreateQuery`,
    src/EasyTierHost.Core/DnsMessage.cs). */
module DnsQuery {
  import opened Options
  import opened DnsName
  import opened DnsMessage
  import opened TextUnits

  // ------------------------------------------------------------ name text

  type Text = seq<Unit>

  const DOT: Unit := 0x2e

  function TrimEnd(s: Text): (r: Text)
    ensures r != [] ==> r[|r| - 1] != DOT
    ensures r <= s && forall i :: |r| <= i < |s| ==> s[i] == DOT
  {
    if s != [] && s[|s| - 1] == DOT then TrimEnd(s[..|s| - 1]) else s
  }

  /** `Split('.')`: never empty, and no piece holds a dot. */
  function Split(s: Text): (r: seq<Text>)
    ensures r != [] && forall i :: 0 <= i < |r| ==> DOT !in r[i]
  {
    if s == [] then [[]]
    else
      var rest := Split(s[1..]);
      if s[0] == DOT then [[]] + rest else [[s[0]] + rest[0]] + rest[1..]
  }

  function Join(labels: seq<Text>): Text
    requires labels != []
  {
    if |labels| == 1 then labels[0] else labels[0] + [DOT] + Join(labels[1..])
  }

  /** Splitting loses nothing. */
  lemma {:induction false} JoinSplit(s: Text)
    ensures Join(Split(s)) == s
  {
    if s != [] {
      JoinSplit(s[1..]);
      var rest := Split(s[1..]);
      if s[0] == DOT {
        assert ([[]] + rest)[1..] == rest;
        assert s == [DOT] + s[1..];
      } else {
        var r := [[s[0]] + rest[0]] + rest[1..];
        assert r[1..] == rest[1..];
        assert s == [s[0]] + s[1..];
      }
    }
  }

  /** `Encoding.ASCII`: a unit it does not have becomes a question mark, so a surrogate pair
      becomes two. */
  function AsciiByte(u: Unit): byte {
    if u < 128 then u else 63
  }

  function AsciiBytes(s: Text): (r: seq<byte>)
    ensures |r| == |s| && forall i :: 0 <= i < |s| ==> r[i] == if s[i] < 128 then s[i] else 63
  {
    seq(|s|, i requires 0 <= i < |s| => AsciiByte(s[i]))
  }

  /** The labels of a name, as octets. */
  ghost function Labels(name: Text): (r: seq<Label>)
    ensures |r| == |Split(TrimEnd(name))|
    ensures forall i :: 0 <= i < |r| ==> r[i] == AsciiBytes(Split(TrimEnd(name))[i])
  {
    var pieces := Split(TrimEnd(name));
    seq(|pieces|, i requires 0 <= i < |pieces| => AsciiBytes(pieces[i]))
  }

  // ------------------------------------------------------------- encoding

  function EncodeLabels(labels: seq<Label>): (r: seq<byte>)
    requires forall i :: 0 <= i < |labels| ==> |labels[i]| < 64
    ensures |r| == LabelBytes(labels)
  {
    if labels == [] then [] else [|labels[0]|] + labels[0] + EncodeLabels(labels[1..])
  }

  /** Labels a name can have on the wire. */
  ghost predicate Encodable(labels: seq<Label>) {
    forall i :: 0 <= i < |labels| ==> 1 <= |labels[i]| <= 63
  }

  /** The bytes `s` stand in `p` at `o`. */
  ghost predicate At(p: seq<byte>, o: nat, s: seq<byte>) {
    o + |s| <= |p| && p[o..o + |s|] == s
  }

  lemma AtSplits(p: seq<byte>, o: nat, s: seq<byte>, t: seq<byte>)
    ensures At(p, o, s + t) <==> At(p, o, s) && At(p, o + |s|, t)
  {
    if o + |s| + |t| <= |p| {
      var whole := p[o..o + |s| + |t|];
      assert whole == p[o..o + |s|] + p[o + |s|..o + |s| + |t|];
      assert whole[..|s|] == p[o..o + |s|] && whole[|s|..] == p[o + |s|..o + |s| + |t|];
      assert (s + t)[..|s|] == s && (s + t)[|s|..] == t;
    }
  }

  lemma AtMeans(p: seq<byte>, o: nat, s: seq<byte>)
    requires At(p, o, s)
    ensures o + |s| <= |p| && p[o..o + |s|] == s
    ensures s != [] ==> p[o] == s[0]
  {
    if s != [] { assert p[o] == p[o..o + |s|][0]; }
  }

  lemma EncodeUnfolds(labels: seq<Label>, ending: seq<byte>)
    requires Encodable(labels) && labels != []
    ensures EncodeLabels(labels) + ending == [|labels[0]|] + (labels[0] + (EncodeLabels(labels[1..]) + ending))
  {
  }

  /** The first label of an encoded name, and what follows it. */
  lemma FirstLabelAt(p: seq<byte>, o: nat, labels: seq<Label>, ending: seq<byte>)
    requires Encodable(labels) && labels != [] && At(p, o, EncodeLabels(labels) + ending)
    ensures o + 1 + |labels[0]| <= |p| && p[o] == |labels[0]| && p[o + 1..o + 1 + |labels[0]|] == labels[0]
    ensures Encodable(labels[1..]) && At(p, o + 1 + |labels[0]|, EncodeLabels(labels[1..]) + ending)
    ensures LabelBytes(labels) == 1 + |labels[0]| + LabelBytes(labels[1..])
  {
    hide At, EncodeLabels;
    var l := labels[0];
    var rest := EncodeLabels(labels[1..]) + ending;
    EncodeUnfolds(labels, ending);
    AtSplits(p, o, [|l|], l + rest);
    AtSplits(p, o + 1, l, rest);
    AtMeans(p, o, [|l|]);
    AtMeans(p, o + 1, l);
  }

  /** Encoded labels followed by a zero are that name, and end there. */
  lemma {:induction false} EncodedIsName(p: seq<byte>, o: nat, labels: seq<Label>)
    requires Encodable(labels) && At(p, o, EncodeLabels(labels) + [0])
    ensures NameAt(p, o, labels, |labels| + 1)
    ensures SkipName(p, o) == Some(o + LabelBytes(labels) + 1)
    decreases |labels|
  {
    if labels == [] {
      assert EncodeLabels(labels) + [0] == [0];
      assert p[o] == p[o..o + 1][0];
    } else {
      hide At, EncodeLabels;
      FirstLabelAt(p, o, labels, [0]);
      EncodedIsName(p, o + 1 + |labels[0]|, labels[1..]);
    }
  }

  lemma {:induction false} ManyLabelsAreLong(labels: seq<Label>)
    requires Encodable(labels)
    ensures LabelBytes(labels) >= 2 * |labels|
  {
    if labels != [] {
      ManyLabelsAreLong(labels[1..]);
    }
  }

  /** A packet with one plainly spelled question is read back, if and only if the name has
      at most 254 octets. The limit of 128 rounds never comes into it: 254 octets hold at
      most 127 labels, and the closing zero makes 128. */
  lemma PlainQuestion(p: seq<byte>, labels: seq<Label>, tail: seq<byte>)
    requires |p| >= 12 && U16(p, 4) == 1 && |tail| == 4
    requires Encodable(labels) && At(p, 12, EncodeLabels(labels) + [0] + tail)
    ensures Parse(p).Some? <==> LabelBytes(labels) <= 254
    ensures Parse(p).Some? ==> Parse(p).value == Asked(LowerAll(labels), tail, 12 + LabelBytes(labels) + 5)
  {
    hide NameAt, EncodeLabels;
    var name := EncodeLabels(labels) + [0];
    AtSplits(p, 12, name, tail);
    EncodedIsName(p, 12, labels);
    ManyLabelsAreLong(labels);
    ParseIsGrammar(p, labels, |labels| + 1);
    if Parse(p).Some? { ParseExtent(p); }
  }

  lemma ParseExtent(p: seq<byte>)
    requires Parse(p).Some?
    ensures SkipName(p, 12).Some? && Parse(p).value.end == SkipName(p, 12).value + 4
    ensures SkipName(p, 12).value + 4 <= |p|
    ensures Parse(p).value.tail == p[SkipName(p, 12).value..SkipName(p, 12).value + 4]
  {
  }

  // ---------------------------------------------------------- create query

  function Header(id: (byte, byte)): seq<byte> {
    [id.0, id.1, 1, 0, 0, 1, 0, 0, 0, 0, 0, 0]
  }

  const A_IN: seq<byte> := [0, 1, 0, 1]

  /** `CreateQuery`; `None` is the exception for a label that is empty or too long. */
  method CreateQuery(name: Text, id: (byte, byte)) returns (r: Option<seq<byte>>)
    ensures r.Some? <==> Encodable(Labels(name))
    ensures r.Some? ==> r.value == Header(id) + (EncodeLabels(Labels(name)) + [0] + A_IN)
    ensures r.Some? ==> r.value[..12] == [id.0, id.1, 1, 0, 0, 1, 0, 0, 0, 0, 0, 0]
    ensures r.Some? ==> r.value[|r.value| - 5..] == [0, 0, 1, 0, 1]
  {
    var pieces := Split(TrimEnd(name));
    ghost var labels := Labels(name);
    var stream := Header(id);
    assert EncodeLabels(labels[..0]) == [];
    hide EncodeLabels, LabelBytes, Split, TrimEnd;
    var i := 0;
    while i < |pieces|
      invariant 0 <= i <= |pieces|
      invariant Encodable(labels[..i])
      invariant stream == Header(id) + EncodeLabels(labels[..i])
    {
      var bytes := AsciiBytes(pieces[i]);
      assert bytes == labels[i];
      if |bytes| < 1 || |bytes| > 63 { return None; }
      assert labels[..i + 1] == labels[..i] + [bytes];
      EncodeGrows(labels[..i], bytes);
      stream := stream + [|bytes|] + bytes;
      assert stream == Header(id) + EncodeLabels(labels[..i + 1]);
      i := i + 1;
    }
    assert labels[..i] == labels;
    assert [0] + A_IN == [0, 0, 1, 0, 1];
    stream := stream + [0, 0, 1, 0, 1];
    r := Some(stream);
  }

  lemma {:induction false} EncodeGrows(labels: seq<Label>, l: Label)
    requires Encodable(labels) && 1 <= |l| <= 63
    ensures Encodable(labels + [l])
    ensures EncodeLabels(labels + [l]) == EncodeLabels(labels) + [|l|] + l
  {
    if labels == [] {
      assert labels + [l] == [l] && [l][1..] == [];
      assert EncodeLabels([l]) == [|l|] + l + EncodeLabels([]);
    } else {
      assert (labels + [l])[1..] == labels[1..] + [l];
      EncodeGrows(labels[1..], l);
    }
  }

  lemma BodyFollowsHeader(id: (byte, byte), body: seq<byte>)
    ensures U16(Header(id) + body, 4) == 1
    ensures At(Header(id) + body, 12, body)
  {
  }

  /** The round trip: a created query is read back as the lower-cased labels of the name,
      type A and class IN, ending with the packet, exactly when the name has at most 254
      octets. */
  lemma QueryRoundTrip(name: Text, id: (byte, byte), p: seq<byte>)
    requires Encodable(Labels(name))
    requires p == Header(id) + (EncodeLabels(Labels(name)) + [0] + A_IN)
    ensures Parse(p).Some? <==> LabelBytes(Labels(name)) <= 254
    ensures Parse(p).Some? ==> Parse(p).value == Asked(LowerAll(Labels(name)), [0, 1, 0, 1], |p|)
    ensures Join(Split(TrimEnd(name))) == TrimEnd(name)
  {
    hide Parse, EncodeLabels, Labels, Join, Split, TrimEnd;
    JoinSplit(TrimEnd(name));
    BodyFollowsHeader(id, EncodeLabels(Labels(name)) + [0] + A_IN);
    PlainQuestion(p, Labels(name), A_IN);
  }
}
