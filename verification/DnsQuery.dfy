/** Host names on the wire, and queries for them. */
module DnsQuery {
  import opened Prelude
  import opened Framing
  import opened DnsCodec

  const DOT: Octet := 46
  const MAX_NAME := 253

  // ------------------------------------------------------ names and labels

  /** The position of the first dot, or the length of the text. */
  function FirstDot(s: seq<Octet>): (d: nat)
    ensures d <= |s|
  {
    if s == [] || s[0] == DOT then 0 else 1 + FirstDot(s[1..])
  }

  lemma {:induction false} FirstDotIs(s: seq<Octet>)
    ensures var d := FirstDot(s); (d < |s| ==> s[d] == DOT) && forall i :: 0 <= i < d ==> s[i] != DOT
  {
    if s != [] && s[0] != DOT {
      FirstDotIs(s[1..]);
      assert forall i :: 1 <= i < |s| ==> s[i] == s[1..][i - 1];
    }
  }

  /** The labels between the dots, an empty text being one empty label. */
  function Split(s: seq<Octet>): (ls: seq<seq<Octet>>)
    ensures ls != []
    decreases |s|
  {
    var d := FirstDot(s);
    if d == |s| then [s] else [s[..d]] + Split(s[d + 1..])
  }

  function Join(ls: seq<seq<Octet>>): seq<Octet>
    requires ls != []
  {
    if |ls| == 1 then ls[0] else ls[0] + [DOT] + Join(ls[1..])
  }

  ghost predicate NoDots(ls: seq<seq<Octet>>) {
    forall i :: 0 <= i < |ls| ==> DOT !in ls[i]
  }

  lemma {:induction false} JoinOfSplit(s: seq<Octet>)
    ensures Join(Split(s)) == s && NoDots(Split(s))
    decreases |s|
  {
    var d := FirstDot(s);
    FirstDotIs(s);
    if d < |s| {
      JoinOfSplit(s[d + 1..]);
      assert Split(s)[1..] == Split(s[d + 1..]);
      assert s == s[..d] + [DOT] + s[d + 1..];
    }
  }

  lemma FirstDotOf(l: seq<Octet>, rest: seq<Octet>)
    requires DOT !in l
    ensures FirstDot(l) == |l| && FirstDot(l + [DOT] + rest) == |l|
  {
    var s := l + [DOT] + rest;
    FirstDotIs(l);
    FirstDotIs(s);
    assert s[|l|] == DOT;
    assert forall i :: 0 <= i < |l| ==> s[i] == l[i];
  }

  /** Splitting finds the labels a text was joined from. */
  lemma {:induction false} SplitOfJoin(ls: seq<seq<Octet>>)
    requires ls != [] && NoDots(ls)
    ensures Split(Join(ls)) == ls
    decreases |ls|
  {
    if |ls| == 1 {
      FirstDotOf(ls[0], []);
    } else {
      var s := Join(ls);
      FirstDotOf(ls[0], Join(ls[1..]));
      SplitOfJoin(ls[1..]);
      assert s[..|ls[0]|] == ls[0] && s[|ls[0]| + 1..] == Join(ls[1..]);
    }
  }

  /** A name takes one octet more per label than it has letters, and the root's: two more than its text. */
  lemma {:induction false} LabelsLength(s: seq<Octet>)
    ensures |Concat(EncodeLabel, Split(s))| == |s| + 1
    decreases |s|
  {
    var d := FirstDot(s);
    var ls := Split(s);
    if d == |s| {
      assert ls[1..] == [];
      assert Concat(EncodeLabel, ls[1..]) == [];
    } else {
      assert ls[1..] == Split(s[d + 1..]);
      LabelsLength(s[d + 1..]);
    }
  }

  // ------------------------------------------------------------- encoding

  /** The text without the dot of the root, if it ends in one. */
  function Stripped(name: seq<Octet>): seq<Octet> {
    if name != [] && name[|name| - 1] == DOT then name[..|name| - 1] else name
  }

  ghost predicate NameAccepted(name: seq<Octet>) {
    |name| <= MAX_NAME && Stripped(name) != [] && All(LabelOk, Split(Stripped(name)))
  }

  function WireName(name: seq<Octet>): Name {
    Name(Split(Stripped(name)), Root)
  }

  lemma AllCons(l: seq<Octet>, ls: seq<seq<Octet>>)
    ensures All(LabelOk, [l] + ls) <==> LabelOk(l) && All(LabelOk, ls)
  {
    var all := [l] + ls;
    assert forall i :: 0 <= i < |ls| ==> all[i + 1] == ls[i];
    if All(LabelOk, all) { assert LabelOk(all[0]); }
  }

  lemma ConcatCons(l: seq<Octet>, ls: seq<seq<Octet>>)
    ensures Concat(EncodeLabel, [l] + ls) == EncodeLabel(l) + Concat(EncodeLabel, ls)
  {
    assert ([l] + ls)[1..] == ls;
  }

  /** The labels of s are its first one and those behind its dot. */
  lemma SplitStep(s: seq<Octet>, l: seq<Octet>, more: seq<seq<Octet>>)
    requires l == s[..FirstDot(s)] && more == if FirstDot(s) == |s| then [] else Split(s[FirstDot(s) + 1..])
    ensures All(LabelOk, Split(s)) <==> LabelOk(l) && All(LabelOk, more)
    ensures Concat(EncodeLabel, Split(s)) == EncodeLabel(l) + Concat(EncodeLabel, more)
  {
    assert Split(s) == [l] + more by {
      if FirstDot(s) == |s| { assert s[..|s|] == s && [s] + [] == [s]; }
    }
    AllCons(l, more);
    ConcatCons(l, more);
  }

  /** std::string_view::find for a dot from `start` on: its position, or the length of the text. */
  method FindDot(s: seq<Octet>, start: nat) returns (dot: nat)
    requires start <= |s|
    ensures dot == start + FirstDot(s[start..])
  {
    dot := start;
    while dot < |s| && s[dot] != DOT
      invariant start <= dot <= |s| && dot + FirstDot(s[dot..]) == start + FirstDot(s[start..])
    {
      assert s[dot..][1..] == s[dot + 1..];
      dot := dot + 1;
    }
  }

  /** The labels still to come from `start` on. */
  function LabelsFrom(s: seq<Octet>, start: nat): seq<seq<Octet>> {
    if start <= |s| then Split(s[start..]) else []
  }

  /** The labels before `start` are accepted and encoded in `built`, behind `out`. */
  ghost predicate Encoding(s: seq<Octet>, out: seq<Octet>, built: seq<Octet>, start: nat) {
    && (All(LabelOk, Split(s)) <==> All(LabelOk, LabelsFrom(s, start)))
    && out + Concat(EncodeLabel, Split(s)) == built + Concat(EncodeLabel, LabelsFrom(s, start))
  }

  lemma Assoc(a: seq<Octet>, b: seq<Octet>, c: seq<Octet>)
    ensures (a + b) + c == a + (b + c)
  {
  }

  lemma LabelsStep(s: seq<Octet>, start: nat, end: nat)
    requires start <= |s| && end == start + FirstDot(s[start..])
    ensures var l, more := s[start..end], LabelsFrom(s, end + 1);
            && (All(LabelOk, LabelsFrom(s, start)) <==> LabelOk(l) && All(LabelOk, more))
            && Concat(EncodeLabel, LabelsFrom(s, start)) == EncodeLabel(l) + Concat(EncodeLabel, more)
  {
    var t, l, more := s[start..], s[start..end], LabelsFrom(s, end + 1);
    assert l == t[..end - start];
    assert end < |s| ==> t[end - start + 1..] == s[end + 1..];
    SplitStep(t, l, more);
  }

  lemma EncodingStep(s: seq<Octet>, out: seq<Octet>, built: seq<Octet>, start: nat, end: nat)
    requires start <= |s| && end == start + FirstDot(s[start..]) && Encoding(s, out, built, start)
    ensures !LabelOk(s[start..end]) ==> !All(LabelOk, Split(s))
    ensures LabelOk(s[start..end]) ==> Encoding(s, out, built + EncodeLabel(s[start..end]), end + 1)
  {
    LabelsStep(s, start, end);
    Assoc(built, EncodeLabel(s[start..end]), Concat(EncodeLabel, LabelsFrom(s, end + 1)));
  }

  lemma EncodingEnds(s: seq<Octet>, out: seq<Octet>, built: seq<Octet>, start: nat)
    requires start > |s| && Encoding(s, out, built, start)
    ensures All(LabelOk, Split(s)) && built + [0] == out + (Concat(EncodeLabel, Split(s)) + [0])
  {
    var c := Concat(EncodeLabel, Split(s));
    assert Concat(EncodeLabel, LabelsFrom(s, start)) == [];
    assert built == out + c;
    Assoc(out, c, [0]);
  }

  lemma LabelBytes(text: seq<Octet>)
    requires LabelOk(text)
    ensures [|text| as Octet] + text == EncodeLabel(text)
  {
  }

  /** One round of encode_name()'s loop: the label at `start`, and where the next one begins. */
  method EncodeOne(s: seq<Octet>, ghost out: seq<Octet>, built: seq<Octet>, start: nat)
    returns (r: Result<(seq<Octet>, nat), Errno>)
    requires start <= |s| && Encoding(s, out, built, start)
    ensures r.Ok? ==> start < r.value.1 <= |s| + 1 && Encoding(s, out, r.value.0, r.value.1)
    ensures r.Err? ==> !All(LabelOk, Split(s)) && r.error == EINVAL
  {
    var end := FindDot(s, start);
    var length := end - start;
    var text := s[start..end];
    EncodingStep(s, out, built, start, end);
    if length == 0 || length > 63 { return Err(EINVAL); }
    LabelBytes(text);
    r := Ok((built + ([length as Octet] + text), end + 1));
  }

  /** The loop of encode_name() over the labels of a stripped, nonempty name. */
  method EncodeAllLabels(s: seq<Octet>, out: seq<Octet>) returns (r: Result<seq<Octet>, Errno>)
    ensures r.Ok? <==> All(LabelOk, Split(s))
    ensures r.Ok? ==> r.value == out + (Concat(EncodeLabel, Split(s)) + [0])
    ensures r.Err? ==> r.error == EINVAL
  {
    var built, start := out, 0;
    assert s[0..] == s;
    while start <= |s|
      invariant 0 <= start <= |s| + 1 && Encoding(s, out, built, start)
      decreases |s| + 1 - start
    {
      var one := EncodeOne(s, out, built, start);
      if one.Err? { return Err(one.error); }
      built, start := one.value.0, one.value.1;
    }
    EncodingEnds(s, out, built, start);
    r := Ok(built + [0]);
  }

  /** encode_name(): appends the encoding of the name to `out`. */
  method EncodeText(name: seq<Octet>, out: seq<Octet>) returns (r: Result<seq<Octet>, Errno>)
    ensures r.Ok? <==> NameAccepted(name)
    ensures r.Ok? ==> r.value == out + EncodeName(WireName(name))
    ensures r.Err? ==> r.error == EINVAL
  {
    if |name| > MAX_NAME { return Err(EINVAL); }
    var s := Stripped(name);
    if s == [] { return Err(EINVAL); }
    r := EncodeAllLabels(s, out);
  }

  // -------------------------------------------------------------- queries

  const QUERY_FLAGS: Word := 0x0100       // standard query, recursion desired

  /** The message a query for `name` is. */
  function QueryMessage(name: seq<Octet>, qtype: Word, id: Word): Message {
    Message(id, QUERY_FLAGS, 0, 0, [Question(WireName(name), qtype, CLASS_IN)], [], [])
  }

  /** An accepted name is well formed and takes at most 255 octets, as section 2.3.4 of RFC 1035 demands. */
  lemma NameFitsTheWire(name: seq<Octet>)
    requires NameAccepted(name)
    ensures NameOk(WireName(name)) && |EncodeName(WireName(name))| == |Stripped(name)| + 2 <= 255
    ensures Join(WireName(name).labels) == Stripped(name)
  {
    LabelsLength(Stripped(name));
    JoinOfSplit(Stripped(name));
    var ls := WireName(name).labels;
    forall i | 0 <= i < |ls| ensures LabelOk(ls[i]) {}
  }

  method BuildQuery(name: seq<Octet>, qtype: Word, id: Word) returns (r: Result<seq<Octet>, Errno>)
    ensures r.Ok? <==> NameAccepted(name)
    ensures r.Ok? ==> r.value == EncodeMessage(QueryMessage(name, qtype, id))
    ensures r.Err? ==> r.error == EINVAL
  {
    var header := EncodeWord(id) + (EncodeWord(QUERY_FLAGS) + EncodeWord(1))
        + (EncodeWord(0) + (EncodeWord(0) + EncodeWord(0)));
    var encoded := EncodeText(name, header);
    if encoded.Err? { return Err(encoded.error); }
    r := Ok(encoded.value + EncodeWord(qtype) + EncodeWord(CLASS_IN));
    QueryBytes(name, qtype, id, header);
  }

  lemma QueryBytes(name: seq<Octet>, qtype: Word, id: Word, header: seq<Octet>)
    requires header == EncodeHeader(QueryMessage(name, qtype, id))
    ensures EncodeMessage(QueryMessage(name, qtype, id))
            == header + EncodeName(WireName(name)) + EncodeWord(qtype) + EncodeWord(CLASS_IN)
  {
    var q := Question(WireName(name), qtype, CLASS_IN);
    var n, t, c := EncodeName(q.name), EncodeWord(qtype), EncodeWord(CLASS_IN);
    assert [q][1..] == [];
    assert Concat(EncodeQuestion, [q][1..]) == [];
    assert Concat(EncodeQuestion, [q]) == EncodeQuestion(q);
    assert Concat(EncodeQuestion, [q]) + (Concat(EncodeRecord, []) + []) == n + (t + c);
    Assoc(header, n, t + c);
    Assoc(header + n, t, c);
  }

  /** The header and the question of a query, by position. */
  lemma QueryPlaces(name: seq<Octet>, qtype: Word, id: Word)
    ensures var m := QueryMessage(name, qtype, id); var b := EncodeMessage(m);
            && |b| >= HEADER_BYTES && ReadWord(b, 0) == id && ReadWord(b, 2) == QUERY_FLAGS
            && ReadWord(b, 4) == 1 && ReadWord(b, 6) == 0
            && Here(b, HEADER_BYTES, EncodeQuestion(m.questions[0]))
            && |b| == HEADER_BYTES + |EncodeQuestion(m.questions[0])|
  {
    var m := QueryMessage(name, qtype, id);
    var b := EncodeMessage(m);
    var q := m.questions[0];
    HeaderSplit(b, m);
    assert [q][1..] == [];
    assert Concat(EncodeQuestion, [q]) == EncodeQuestion(q) + [] == EncodeQuestion(q);
    assert Concat(EncodeRecord, m.answers) + m.rest == [];
    PartsSplit(b, EncodeHeader(m), Concat(EncodeQuestion, [q]), Concat(EncodeRecord, m.answers), m.rest);
  }

  lemma ShortQuery(name: seq<Octet>, qtype: Word, id: Word)
    requires NameOk(WireName(name)) && |WireName(name).labels| <= MAX_HOPS
    ensures var m := QueryMessage(name, qtype, id); var b := EncodeMessage(m);
            Meant(b, m, id) && ReadQuestion(b, HEADER_BYTES) == Some((Question(UNNAMED, qtype, CLASS_IN), |b|))
  {
    var m := QueryMessage(name, qtype, id);
    QueryPlaces(name, qtype, id);
    ReadQuestionComplete(EncodeMessage(m), HEADER_BYTES, m.questions[0]);
  }

  lemma ShortQueryParses(name: seq<Octet>, qtype: Word, id: Word, port: Word)
    requires Meant(EncodeMessage(QueryMessage(name, qtype, id)), QueryMessage(name, qtype, id), id)
    ensures Parse(EncodeMessage(QueryMessage(name, qtype, id)), id, port) == Ok(Answer(false, []))
  {
    var m := QueryMessage(name, qtype, id);
    ParseIsComplete(EncodeMessage(m), m, id, port);
    assert !Truncated(m.flags) && AddressesOf(m.answers, port) == [];
  }

  lemma LongQuestion(b: seq<Octet>, at: nat, q: Question)
    requires NameOk(q.name) && |q.name.labels| > MAX_HOPS && Here(b, at, EncodeQuestion(q))
    ensures QuestionReader(b)(at).None?
  {
    QuestionSplit(b, at, q);
    SkipIsComplete(b, at, 0, q.name);
  }

  lemma ParseStops(b: seq<Octet>, id: Word, port: Word)
    requires |b| >= HEADER_BYTES && ReadWord(b, 0) == id && Refusal(ReadWord(b, 2)).None? && ReadWord(b, 4) > 0
    requires QuestionReader(b)(HEADER_BYTES).None?
    ensures Parse(b, id, port) == Err(EBADMSG)
  {
    TwoWalksStop(QuestionReader(b), RecordReader(b), HEADER_BYTES, ReadWord(b, 4), ReadWord(b, 6));
  }

  lemma LongQuery(name: seq<Octet>, qtype: Word, id: Word, port: Word)
    requires NameOk(WireName(name)) && |WireName(name).labels| > MAX_HOPS
    ensures Parse(EncodeMessage(QueryMessage(name, qtype, id)), id, port) == Err(EBADMSG)
  {
    var m := QueryMessage(name, qtype, id);
    QueryPlaces(name, qtype, id);
    LongQuestion(EncodeMessage(m), HEADER_BYTES, m.questions[0]);
    ParseStops(EncodeMessage(m), id, port);
  }

  /**
   Parsing the query as a response walks its one question to the last octet and
   finds no address, if and only if the name has at most 64 labels; a longer one,
   which the query builder accepts, is refused.
   */
  lemma QueryParses(name: seq<Octet>, qtype: Word, id: Word, port: Word)
    requires NameAccepted(name)
    ensures var b := EncodeMessage(QueryMessage(name, qtype, id));
            if |WireName(name).labels| <= MAX_HOPS
            then && Parse(b, id, port) == Ok(Answer(false, []))
                 && ReadQuestion(b, HEADER_BYTES) == Some((Question(UNNAMED, qtype, CLASS_IN), |b|))
            else Parse(b, id, port) == Err(EBADMSG)
  {
    NameFitsTheWire(name);
    if |WireName(name).labels| <= MAX_HOPS {
      ShortQuery(name, qtype, id);
      ShortQueryParses(name, qtype, id, port);
    } else {
      LongQuery(name, qtype, id, port);
    }
  }

  /** n one-letter labels. */
  function Letters(n: nat): seq<seq<Octet>> {
    if n == 0 then [] else [[97]] + Letters(n - 1)
  }

  lemma {:induction false} LettersAre(n: nat)
    ensures |Letters(n)| == n && NoDots(Letters(n)) && All(LabelOk, Letters(n))
    ensures n > 0 ==> |Join(Letters(n))| == 2 * n - 1 && Join(Letters(n))[2 * n - 2] == 97
  {
    if n > 0 {
      LettersAre(n - 1);
      assert Letters(n)[1..] == Letters(n - 1);
    }
  }

  /** The family the builder accepts and the parser refuses: names of 65 to 127 one-letter labels, among others. */
  lemma LongNamesAreRefused(n: nat, qtype: Word, id: Word, port: Word)
    requires MAX_HOPS < n <= 127
    ensures var name := Join(Letters(n));
            NameAccepted(name) && Parse(EncodeMessage(QueryMessage(name, qtype, id)), id, port) == Err(EBADMSG)
  {
    LettersAre(n);
    SplitOfJoin(Letters(n));
    QueryParses(Join(Letters(n)), qtype, id, port);
  }
}
