/**
 The DNS wire codec: name encoding, query construction and response parsing, with
 a reference grammar for the messages of section 4.1 of RFC 1035. Octets are the
 integers 0 to 255 and two-octet fields are written high octet first.
 */
module DnsCodec {
  import opened Prelude
  import opened Framing

  type Word = w: int | 0 <= w < 65536

  datatype Errno = EBADMSG | EINVAL | ENOENT

  const HEADER_BYTES := 12
  const MAX_HOPS := 64
  const TYPE_A := 1
  const TYPE_AAAA := 28
  const CLASS_IN := 1

  // ---------------------------------------------------- reference grammar

  /** What ends a name: the root label or a compression pointer. */
  datatype Tail = Root | Pointer(high: Octet, low: Octet)
  datatype Name = Name(labels: seq<seq<Octet>>, tail: Tail)
  datatype Question = Question(name: Name, qtype: Word, qclass: Word)
  datatype Record = Record(name: Name, rtype: Word, rclass: Word, ttl: seq<Octet>, rdata: seq<Octet>)
  datatype Message = Message(id: Word, flags: Word, nscount: Word, arcount: Word,
                             questions: seq<Question>, answers: seq<Record>, rest: seq<Octet>)

  predicate LabelOk(l: seq<Octet>) {
    1 <= |l| <= 63
  }

  predicate NameOk(n: Name) {
    && (forall i :: 0 <= i < |n.labels| ==> LabelOk(n.labels[i]))
    && (n.tail.Pointer? ==> n.tail.high >= 0xC0)
  }

  function EncodeWord(w: Word): seq<Octet> {
    [(w / 256) as Octet, (w % 256) as Octet]
  }

  function EncodeLabel(l: seq<Octet>): seq<Octet> {
    [(|l| % 256) as Octet] + l
  }

  function EncodeTail(t: Tail): seq<Octet> {
    match t
    case Root => [0]
    case Pointer(high, low) => [high, low]
  }

  function EncodeName(n: Name): seq<Octet> {
    Concat(EncodeLabel, n.labels) + EncodeTail(n.tail)
  }

  function EncodeQuestion(q: Question): seq<Octet> {
    EncodeName(q.name) + (EncodeWord(q.qtype) + EncodeWord(q.qclass))
  }

  function EncodeBody(r: Record): seq<Octet> {
    EncodeWord(r.rtype) + (EncodeWord(r.rclass) + (r.ttl + (EncodeWord(|r.rdata| % 65536) + r.rdata)))
  }

  function EncodeRecord(r: Record): seq<Octet> {
    EncodeName(r.name) + EncodeBody(r)
  }

  function EncodeWords(x: Word, y: Word, z: Word): seq<Octet> {
    EncodeWord(x) + (EncodeWord(y) + EncodeWord(z))
  }

  function EncodeHeader(m: Message): seq<Octet> {
    EncodeWords(m.id, m.flags, |m.questions| % 65536) + EncodeWords(|m.answers| % 65536, m.nscount, m.arcount)
  }

  function EncodeMessage(m: Message): seq<Octet> {
    EncodeHeader(m)
    + (Concat(EncodeQuestion, m.questions) + (Concat(EncodeRecord, m.answers) + m.rest))
  }

  /** A well-formed name within the parser's label bound. */
  predicate Fits(n: Name) {
    NameOk(n) && |n.labels| <= MAX_HOPS
  }

  predicate QuestionFits(q: Question) {
    Fits(q.name)
  }

  predicate RecordFits(r: Record) {
    Fits(r.name) && |r.ttl| == 4 && |r.rdata| < 65536
  }

  ghost predicate MessageFits(m: Message) {
    && |m.questions| < 65536 && |m.answers| < 65536
    && All(QuestionFits, m.questions) && All(RecordFits, m.answers)
  }

  datatype Address = V4(raw: seq<Octet>, port: Word) | V6(raw: seq<Octet>, port: Word)

  /** The address a record carries: class IN, type A with four octets or AAAA with sixteen. */
  function AddressOf(r: Record, port: Word): seq<Address> {
    if r.rclass == CLASS_IN && r.rtype == TYPE_A && |r.rdata| == 4 then [V4(r.rdata, port)]
    else if r.rclass == CLASS_IN && r.rtype == TYPE_AAAA && |r.rdata| == 16 then [V6(r.rdata, port)]
    else []
  }

  function AddressesOf(rs: seq<Record>, port: Word): seq<Address> {
    if rs == [] then [] else AddressOf(rs[0], port) + AddressesOf(rs[1..], port)
  }

  // -------------------------------------------------------- skipping names

  /** skip_name() from `at` with `hops` labels already passed. */
  function Skip(m: seq<Octet>, at: nat, hops: nat): (r: Option<nat>)
    ensures r.Some? ==> at < r.value <= |m|
    decreases |m| - at
  {
    if at >= |m| then None
    else if m[at] == 0 then Some(at + 1)
    else if m[at] >= 0xC0 then (if at + 1 >= |m| then None else Some(at + 2))
    else if m[at] >= 0x40 then None
    else if hops + 1 > MAX_HOPS then None
    else Skip(m, at + 1 + m[at] as int, hops + 1)
  }

  /** The two top bits of a length octet, as ranges. */
  lemma TopBits(b: bv8)
    ensures b & 0xC0 == 0xC0 <==> b >= 0xC0
    ensures b & 0xC0 != 0 <==> b >= 0x40
  {
  }

  method SkipName(m: seq<Octet>, start: nat) returns (r: Result<nat, Errno>)
    ensures var end := Skip(m, start, 0); r == if end.None? then Err(EBADMSG) else Ok(end.value)
  {
    var at, hops := start, 0;
    while true
      invariant Skip(m, at, hops) == Skip(m, start, 0)
      decreases |m| - at
    {
      if at >= |m| { return Err(EBADMSG); }
      var length := m[at];
      if length == 0 { return Ok(at + 1); }
      if length >= 0xC0 {
        if at + 1 >= |m| { return Err(EBADMSG); }
        return Ok(at + 2);
      }
      if length >= 0x40 { return Err(EBADMSG); }
      at := at + 1 + length as int;
      hops := hops + 1;
      if hops > MAX_HOPS { return Err(EBADMSG); }
    }
  }

  lemma NameCons(l: seq<Octet>, ls: seq<seq<Octet>>, t: Tail)
    ensures EncodeName(Name([l] + ls, t)) == EncodeLabel(l) + EncodeName(Name(ls, t))
  {
    assert ([l] + ls)[1..] == ls;
    assert EncodeLabel(l) + (Concat(EncodeLabel, ls) + EncodeTail(t))
        == (EncodeLabel(l) + Concat(EncodeLabel, ls)) + EncodeTail(t);
  }

  lemma LabelIsHere(m: seq<Octet>, at: nat, l: seq<Octet>)
    requires LabelOk(l)
    ensures Here(m, at, EncodeLabel(l)) <==> at < |m| && m[at] as int == |l| && Here(m, at + 1, l)
  {
    HereSplit(m, at, [|l| as Octet], l);
    if at < |m| { assert m[at..at + 1] == [m[at]]; }
  }

  /** A label in front of a name. */
  lemma NameJoin(m: seq<Octet>, at: nat, l: seq<Octet>, n: Name)
    requires LabelOk(l) && NameOk(n)
    ensures NameOk(Name([l] + n.labels, n.tail))
    ensures |EncodeName(Name([l] + n.labels, n.tail))| == 1 + |l| + |EncodeName(n)|
    ensures Here(m, at, EncodeName(Name([l] + n.labels, n.tail))) <==>
              at < |m| && m[at] as int == |l| && Here(m, at + 1, l) && Here(m, at + 1 + |l|, EncodeName(n))
  {
    NameCons(l, n.labels, n.tail);
    HereSplit(m, at, EncodeLabel(l), EncodeName(n));
    LabelIsHere(m, at, l);
  }

  /** A label in front of what is skipped. */
  lemma SkipLabel(m: seq<Octet>, at: nat, hops: nat, n: Name) returns (longer: Name)
    requires at < |m| && 0 < m[at] < 0x40 && hops < MAX_HOPS && NameOk(n)
    requires var next := at + 1 + m[at] as int;
             Here(m, next, EncodeName(n)) && Skip(m, next, hops + 1) == Some(next + |EncodeName(n)|)
    ensures NameOk(longer) && |longer.labels| == |n.labels| + 1
    ensures Here(m, at, EncodeName(longer)) && Skip(m, at, hops) == Some(at + |EncodeName(longer)|)
  {
    var l := m[at + 1..at + 1 + m[at] as int];
    NameJoin(m, at, l, n);
    longer := Name([l] + n.labels, n.tail);
  }

  lemma SkipTail(m: seq<Octet>, at: nat, hops: nat) returns (n: Name)
    requires Skip(m, at, hops).Some? && (m[at] == 0 || m[at] >= 0xC0)
    ensures NameOk(n) && n.labels == []
    ensures Here(m, at, EncodeName(n)) && Skip(m, at, hops) == Some(at + |EncodeName(n)|)
  {
    n := Name([], if m[at] == 0 then Root else Pointer(m[at], m[at + 1]));
    TailName(n.tail);
    if m[at] == 0 {
      assert m[at..at + 1] == [m[at]];
    } else {
      assert m[at..at + 2] == [m[at], m[at + 1]];
    }
  }

  lemma TailName(t: Tail)
    ensures EncodeName(Name([], t)) == EncodeTail(t)
  {
  }

  /** Whatever is skipped is a name of the grammar. */
  lemma {:induction false} SkipIsSound(m: seq<Octet>, at: nat, hops: nat) returns (n: Name)
    requires Skip(m, at, hops).Some? && hops <= MAX_HOPS
    ensures NameOk(n) && hops + |n.labels| <= MAX_HOPS
    ensures Here(m, at, EncodeName(n)) && Skip(m, at, hops) == Some(at + |EncodeName(n)|)
    decreases |m| - at
  {
    if m[at] == 0 || m[at] >= 0xC0 {
      n := SkipTail(m, at, hops);
    } else {
      n := SkipIsSound(m, at + 1 + m[at] as int, hops + 1);
      n := SkipLabel(m, at, hops, n);
    }
  }

  lemma TailIsSkipped(m: seq<Octet>, at: nat, hops: nat, n: Name)
    requires NameOk(n) && n.labels == [] && Here(m, at, EncodeName(n))
    ensures Skip(m, at, hops) == Some(at + |EncodeName(n)|)
  {
    assert EncodeName(n) == EncodeTail(n.tail);
    assert m[at..at + |EncodeTail(n.tail)|][0] == m[at];
  }

  /** A name of the grammar is skipped exactly, if and only if its labels fit the bound. */
  lemma {:induction false} SkipIsComplete(m: seq<Octet>, at: nat, hops: nat, n: Name)
    requires NameOk(n) && Here(m, at, EncodeName(n)) && hops <= MAX_HOPS
    ensures Skip(m, at, hops) == if hops + |n.labels| <= MAX_HOPS then Some(at + |EncodeName(n)|) else None
    decreases |n.labels|
  {
    if n.labels == [] {
      TailIsSkipped(m, at, hops, n);
    } else {
      var l, n' := n.labels[0], Name(n.labels[1..], n.tail);
      assert LabelOk(l) && [l] + n'.labels == n.labels;
      NameJoin(m, at, l, n');
      if hops + 1 <= MAX_HOPS { SkipIsComplete(m, at + 1 + |l|, hops + 1, n'); }
    }
  }

  // ------------------------------------------------------- reading sections

  function ReadWord(m: seq<Octet>, at: nat): Word
    requires at + 2 <= |m|
  {
    (m[at] as int) * 256 + m[at + 1] as int
  }

  lemma WordIsHere(m: seq<Octet>, at: nat, w: Word)
    ensures Here(m, at, EncodeWord(w)) <==> at + 2 <= |m| && ReadWord(m, at) == w
  {
    if at + 2 <= |m| {
      assert m[at..at + 2] == [m[at], m[at + 1]];
      if ReadWord(m, at) == w { assert w / 256 == m[at] as int && w % 256 == m[at + 1] as int; }
    }
  }

  const UNNAMED := Name([], Root)

  function QuestionView(q: Question): Question { q.(name := UNNAMED) }

  function RecordView(r: Record): Record { r.(name := UNNAMED) }

  /** The question at `at`, its name skipped unread, and where it ends. */
  function ReadQuestion(m: seq<Octet>, at: nat): Option<(Question, nat)> {
    match Skip(m, at, 0)
    case None => None
    case Some(next) =>
      if next + 4 > |m| then None
      else Some((Question(UNNAMED, ReadWord(m, next), ReadWord(m, next + 2)), next + 4))
  }

  /** The fixed part of a record whose name ends at `at`, and its data, are inside the message. */
  predicate InBounds(m: seq<Octet>, at: nat) {
    at + 10 <= |m| && at + 10 + ReadWord(m, at + 8) <= |m|
  }

  /** The record standing behind a name that ends at `at`. */
  function RecordBehind(m: seq<Octet>, name: Name, at: nat): Record
    requires InBounds(m, at)
  {
    Record(name, ReadWord(m, at), ReadWord(m, at + 2), m[at + 4..at + 8], m[at + 10..at + 10 + ReadWord(m, at + 8)])
  }

  /** The record at `at`, its name skipped unread, and where it ends. */
  function ReadRecord(m: seq<Octet>, at: nat): Option<(Record, nat)> {
    match Skip(m, at, 0)
    case None => None
    case Some(next) =>
      if InBounds(m, next) then Some((RecordBehind(m, UNNAMED, next), next + 10 + ReadWord(m, next + 8))) else None
  }

  lemma QuestionSplit(m: seq<Octet>, at: nat, q: Question)
    ensures var next := at + |EncodeName(q.name)|;
            Here(m, at, EncodeQuestion(q)) <==>
              && Here(m, at, EncodeName(q.name)) && next + 4 <= |m|
              && ReadWord(m, next) == q.qtype && ReadWord(m, next + 2) == q.qclass
  {
    var next := at + |EncodeName(q.name)|;
    HereSplit(m, at, EncodeName(q.name), EncodeWord(q.qtype) + EncodeWord(q.qclass));
    HereSplit(m, next, EncodeWord(q.qtype), EncodeWord(q.qclass));
    WordIsHere(m, next, q.qtype);
    WordIsHere(m, next + 2, q.qclass);
  }

  lemma DataSplit(m: seq<Octet>, at: nat, ttl: seq<Octet>, data: seq<Octet>)
    requires |ttl| == 4 && |data| < 65536
    ensures Here(m, at, ttl + (EncodeWord(|data|) + data)) <==>
              && at + 6 <= |m| && m[at..at + 4] == ttl && ReadWord(m, at + 4) == |data|
              && at + 6 + |data| <= |m| && m[at + 6..at + 6 + |data|] == data
  {
    HereSplit(m, at, ttl, EncodeWord(|data|) + data);
    HereSplit(m, at + 4, EncodeWord(|data|), data);
    WordIsHere(m, at + 4, |data|);
  }

  lemma TwoWordsThen(m: seq<Octet>, at: nat, x: Word, y: Word, rest: seq<Octet>)
    ensures Here(m, at, EncodeWord(x) + (EncodeWord(y) + rest)) <==>
              at + 4 <= |m| && ReadWord(m, at) == x && ReadWord(m, at + 2) == y && Here(m, at + 4, rest)
  {
    HereSplit(m, at, EncodeWord(x), EncodeWord(y) + rest);
    HereSplit(m, at + 2, EncodeWord(y), rest);
    WordIsHere(m, at, x);
    WordIsHere(m, at + 2, y);
  }

  /** The fields of r stand behind a name that ends at `at`. */
  ghost predicate FieldsAre(m: seq<Octet>, at: nat, r: Record) {
    && at + 10 + |r.rdata| <= |m|
    && ReadWord(m, at) == r.rtype && ReadWord(m, at + 2) == r.rclass && m[at + 4..at + 8] == r.ttl
    && ReadWord(m, at + 8) == |r.rdata| && m[at + 10..at + 10 + |r.rdata|] == r.rdata
  }

  lemma BodySplit(m: seq<Octet>, at: nat, r: Record)
    requires |r.ttl| == 4 && |r.rdata| < 65536
    ensures Here(m, at, EncodeBody(r)) <==> FieldsAre(m, at, r)
  {
    var data := r.ttl + (EncodeWord(|r.rdata|) + r.rdata);
    assert EncodeBody(r) == EncodeWord(r.rtype) + (EncodeWord(r.rclass) + data);
    TwoWordsThen(m, at, r.rtype, r.rclass, data);
    DataSplit(m, at + 4, r.ttl, r.rdata);
  }

  lemma FieldsMakeRecord(m: seq<Octet>, at: nat, r: Record)
    requires |r.ttl| == 4 && |r.rdata| < 65536
    ensures FieldsAre(m, at, r) <==> InBounds(m, at) && RecordBehind(m, r.name, at) == r
  {
  }

  lemma RecordSplit(m: seq<Octet>, at: nat, r: Record)
    requires |r.ttl| == 4 && |r.rdata| < 65536
    ensures var next := at + |EncodeName(r.name)|;
            Here(m, at, EncodeRecord(r)) <==>
              && Here(m, at, EncodeName(r.name)) && InBounds(m, next) && RecordBehind(m, r.name, next) == r
  {
    HereSplit(m, at, EncodeName(r.name), EncodeBody(r));
    BodySplit(m, at + |EncodeName(r.name)|, r);
    FieldsMakeRecord(m, at + |EncodeName(r.name)|, r);
  }

  lemma ReadQuestionSound(m: seq<Octet>, at: nat) returns (q: Question)
    requires ReadQuestion(m, at).Some?
    ensures QuestionFits(q) && Here(m, at, EncodeQuestion(q))
    ensures ReadQuestion(m, at) == Some((QuestionView(q), at + |EncodeQuestion(q)|))
  {
    var name := SkipIsSound(m, at, 0);
    var next := at + |EncodeName(name)|;
    q := Question(name, ReadWord(m, next), ReadWord(m, next + 2));
    QuestionSplit(m, at, q);
  }

  lemma ReadQuestionComplete(m: seq<Octet>, at: nat, q: Question)
    requires QuestionFits(q) && Here(m, at, EncodeQuestion(q))
    ensures ReadQuestion(m, at) == Some((QuestionView(q), at + |EncodeQuestion(q)|))
  {
    QuestionSplit(m, at, q);
    SkipIsComplete(m, at, 0, q.name);
  }

  lemma RecordBehindFits(m: seq<Octet>, name: Name, at: nat)
    requires InBounds(m, at) && Fits(name)
    ensures var r := RecordBehind(m, name, at);
            && RecordFits(r) && RecordView(r) == RecordBehind(m, UNNAMED, at)
            && |EncodeRecord(r)| == |EncodeName(name)| + 10 + ReadWord(m, at + 8)
  {
    var r := RecordBehind(m, name, at);
    assert |EncodeBody(r)| == 10 + |r.rdata|;
  }

  lemma ReadRecordSound(m: seq<Octet>, at: nat) returns (r: Record)
    requires ReadRecord(m, at).Some?
    ensures RecordFits(r) && Here(m, at, EncodeRecord(r))
    ensures ReadRecord(m, at) == Some((RecordView(r), at + |EncodeRecord(r)|))
  {
    var name := SkipIsSound(m, at, 0);
    var next := at + |EncodeName(name)|;
    r := RecordBehind(m, name, next);
    RecordBehindFits(m, name, next);
    RecordSplit(m, at, r);
  }

  lemma ReadRecordComplete(m: seq<Octet>, at: nat, r: Record)
    requires RecordFits(r) && Here(m, at, EncodeRecord(r))
    ensures ReadRecord(m, at) == Some((RecordView(r), at + |EncodeRecord(r)|))
  {
    RecordSplit(m, at, r);
    SkipIsComplete(m, at, 0, r.name);
    var next := at + |EncodeName(r.name)|;
    assert Skip(m, at, 0) == Some(next);
    assert RecordBehind(m, UNNAMED, next) == RecordView(RecordBehind(m, r.name, next));
    assert |EncodeBody(r)| == 10 + |r.rdata|;
  }

  function QuestionReader(m: seq<Octet>): nat -> Option<(Question, nat)> {
    (at: nat) => ReadQuestion(m, at)
  }

  function RecordReader(m: seq<Octet>): nat -> Option<(Record, nat)> {
    (at: nat) => ReadRecord(m, at)
  }

  lemma QuestionReaderIsExact(m: seq<Octet>)
    ensures ReadsOnly(m, QuestionReader(m), EncodeQuestion, QuestionFits, QuestionView)
    ensures ReadsAll(m, QuestionReader(m), EncodeQuestion, QuestionFits, QuestionView)
  {
    var read, encode, ok, view := QuestionReader(m), EncodeQuestion, QuestionFits, QuestionView;
    forall at: nat | read(at).Some? ensures exists y :: IsItemAt(m, at, read(at).value, encode, ok, view, y) {
      var q := ReadQuestionSound(m, at);
      assert IsItemAt(m, at, read(at).value, encode, ok, view, q);
    }
    forall at: nat, q | ok(q) && Here(m, at, encode(q)) ensures read(at) == Some((view(q), at + |encode(q)|)) {
      ReadQuestionComplete(m, at, q);
    }
  }

  lemma RecordItem(m: seq<Octet>, at: nat) returns (r: Record)
    requires RecordReader(m)(at).Some?
    ensures IsItemAt(m, at, RecordReader(m)(at).value, EncodeRecord, RecordFits, RecordView, r)
  {
    r := ReadRecordSound(m, at);
  }

  lemma RecordReaderIsSound(m: seq<Octet>)
    ensures ReadsOnly(m, RecordReader(m), EncodeRecord, RecordFits, RecordView)
  {
    var read := RecordReader(m);
    forall at: nat | read(at).Some?
      ensures exists y :: IsItemAt(m, at, read(at).value, EncodeRecord, RecordFits, RecordView, y)
    {
      var r := RecordItem(m, at);
    }
  }

  lemma RecordReaderIsComplete(m: seq<Octet>)
    ensures ReadsAll(m, RecordReader(m), EncodeRecord, RecordFits, RecordView)
  {
    var read, encode, ok, view := RecordReader(m), EncodeRecord, RecordFits, RecordView;
    forall at: nat, r | ok(r) && Here(m, at, encode(r)) ensures read(at) == Some((view(r), at + |encode(r)|)) {
      ReadRecordComplete(m, at, r);
    }
  }

  lemma RecordReaderIsExact(m: seq<Octet>)
    ensures ReadsOnly(m, RecordReader(m), EncodeRecord, RecordFits, RecordView)
    ensures ReadsAll(m, RecordReader(m), EncodeRecord, RecordFits, RecordView)
  {
    RecordReaderIsSound(m);
    RecordReaderIsComplete(m);
  }

  // -------------------------------------------------------------- responses

  datatype Answer = Answer(truncated: bool, addresses: seq<Address>)

  predicate Truncated(flags: Word) {
    flags / 0x200 % 2 == 1
  }

  /** The flag bits the parser looks at. */
  lemma FlagBits(flags: bv16)
    ensures flags & 0x0200 != 0 <==> flags / 0x200 % 2 == 1
    ensures flags & 0x000F == flags % 16
  {
  }

  /** What the response code means: None to go on with the message. */
  function Refusal(flags: Word): Option<Errno> {
    if flags % 16 == 3 then Some(ENOENT)
    else if flags % 16 != 0 && !Truncated(flags) then Some(EBADMSG)
    else None
  }

  /** The question and answer sections behind the header: the records, names unread. */
  function ReadSections(m: seq<Octet>): Option<seq<Record>>
    requires |m| >= HEADER_BYTES
  {
    TwoWalks(QuestionReader(m), RecordReader(m), HEADER_BYTES, ReadWord(m, 4), ReadWord(m, 6))
  }

  /** The message as parse_response() sees it. */
  function Parse(m: seq<Octet>, id: Word, port: Word): Result<Answer, Errno> {
    if |m| < HEADER_BYTES || ReadWord(m, 0) != id then Err(EBADMSG)
    else if Refusal(ReadWord(m, 2)).Some? then Err(Refusal(ReadWord(m, 2)).value)
    else
      match ReadSections(m)
      case None => Err(EBADMSG)
      case Some(records) => Ok(Answer(Truncated(ReadWord(m, 2)), AddressesOf(records, port)))
  }

  /** One round of the question loop: the end of the question at `start`. */
  method SkipQuestion(m: seq<Octet>, start: nat) returns (r: Result<nat, Errno>)
    ensures var found := QuestionReader(m)(start); r == if found.None? then Err(EBADMSG) else Ok(found.value.1)
    ensures r.Ok? ==> r.value <= |m|
  {
    var next := SkipName(m, start);
    if next.Err? { return Err(next.error); }
    if next.value + 4 > |m| { return Err(EBADMSG); }
    r := Ok(next.value + 4);
  }

  /** The walk over the question section, and the position it reaches. */
  method SkipQuestions(m: seq<Octet>, questions: Word) returns (r: Result<nat, Errno>)
    requires |m| >= HEADER_BYTES
    ensures var walk := Walk(QuestionReader(m), HEADER_BYTES, questions);
            r == if walk.None? then Err(EBADMSG) else Ok(walk.value.1)
    ensures r.Ok? ==> r.value <= |m|
  {
    var at: nat, i := HEADER_BYTES, 0;
    ghost var read := QuestionReader(m);
    ghost var passed: seq<Question> := [];
    WalkBegins(read, HEADER_BYTES, questions);
    while i < questions
      invariant 0 <= i <= questions && at <= |m| && read == QuestionReader(m)
      invariant Walking(read, HEADER_BYTES, questions, passed, at, questions - i)
    {
      WalkGoesOn(read, HEADER_BYTES, questions, passed, at, questions - i);
      var next := SkipQuestion(m, at);
      if next.Err? { return next; }
      passed := passed + [read(at).value.0];
      at, i := next.value, i + 1;
    }
    WalkEnds(read, HEADER_BYTES, questions, passed, at);
    r := Ok(at);
  }

  lemma {:induction false} AddressesAppend(rs: seq<Record>, r: Record, port: Word)
    ensures AddressesOf(rs + [r], port) == AddressesOf(rs, port) + AddressOf(r, port)
  {
    if rs == [] {
      assert rs + [r] == [r];
    } else {
      assert (rs + [r])[1..] == rs[1..] + [r];
      AddressesAppend(rs[1..], r, port);
    }
  }

  /** One round of the answer loop: the address of the record at `start`, if it carries one, and its end. */
  method ReadAnswer(m: seq<Octet>, start: nat, port: Word) returns (r: Result<(seq<Address>, nat), Errno>)
    ensures var found := RecordReader(m)(start);
            r == if found.None? then Err(EBADMSG) else Ok((AddressOf(found.value.0, port), found.value.1))
    ensures r.Ok? ==> r.value.1 <= |m|
  {
    var next := SkipName(m, start);
    if next.Err? { return Err(next.error); }
    var at := next.value;
    if at + 10 > |m| { return Err(EBADMSG); }
    var rtype, rclass, length := ReadWord(m, at), ReadWord(m, at + 2), ReadWord(m, at + 8);
    at := at + 10;
    if at + length > |m| { return Err(EBADMSG); }
    var found := [];
    if rclass == CLASS_IN && rtype == TYPE_A && length == 4 {
      found := [V4(m[at..at + length], port)];
    } else if rclass == CLASS_IN && rtype == TYPE_AAAA && length == 16 {
      found := [V6(m[at..at + length], port)];
    }
    r := Ok((found, at + length));
  }

  method ReadAnswers(m: seq<Octet>, start: nat, answers: Word, port: Word) returns (r: Result<seq<Address>, Errno>)
    requires start <= |m|
    ensures var walk := Walk(RecordReader(m), start, answers);
            r == if walk.None? then Err(EBADMSG) else Ok(AddressesOf(walk.value.0, port))
  {
    var at, i := start, 0;
    var addresses: seq<Address> := [];
    ghost var read := RecordReader(m);
    ghost var passed: seq<Record> := [];
    WalkBegins(read, start, answers);
    while i < answers
      invariant 0 <= i <= answers && 0 <= at <= |m| && read == RecordReader(m)
      invariant addresses == AddressesOf(passed, port)
      invariant Walking(read, start, answers, passed, at, answers - i)
    {
      WalkGoesOn(read, start, answers, passed, at, answers - i);
      var one := ReadAnswer(m, at, port);
      if one.Err? { return Err(one.error); }
      ghost var record := read(at).value.0;
      AddressesAppend(passed, record, port);
      passed := passed + [record];
      addresses, at, i := addresses + one.value.0, one.value.1, i + 1;
    }
    WalkEnds(read, start, answers, passed, at);
    r := Ok(addresses);
  }

  method ParseResponse(m: seq<Octet>, id: Word, port: Word) returns (r: Result<Answer, Errno>)
    ensures r == Parse(m, id, port)
  {
    if |m| < HEADER_BYTES { return Err(EBADMSG); }
    if ReadWord(m, 0) != id { return Err(EBADMSG); }
    var flags := ReadWord(m, 2);
    var truncated := Truncated(flags);
    var rcode := flags % 16;
    if rcode == 3 { return Err(ENOENT); }
    if rcode != 0 && !truncated { return Err(EBADMSG); }
    var end := SkipQuestions(m, ReadWord(m, 4));
    if end.Err? { return Err(end.error); }
    var addresses := ReadAnswers(m, end.value, ReadWord(m, 6), port);
    if addresses.Err? { return Err(addresses.error); }
    r := Ok(Answer(truncated, addresses.value));
  }

  // ----------------------------------------------- the parser is exact

  /** Names play no part in the addresses. */
  lemma {:induction false} ViewAddresses(rs: seq<Record>, port: Word)
    ensures AddressesOf(Map(RecordView, rs), port) == AddressesOf(rs, port)
  {
    if rs != [] {
      assert Map(RecordView, rs)[1..] == Map(RecordView, rs[1..]);
      ViewAddresses(rs[1..], port);
    }
  }

  lemma WordsAreHere(b: seq<Octet>, at: nat, x: Word, y: Word, z: Word)
    ensures Here(b, at, EncodeWords(x, y, z)) <==>
              at + 6 <= |b| && ReadWord(b, at) == x && ReadWord(b, at + 2) == y && ReadWord(b, at + 4) == z
  {
    HereSplit(b, at, EncodeWord(x), EncodeWord(y) + EncodeWord(z));
    HereSplit(b, at + 2, EncodeWord(y), EncodeWord(z));
    WordIsHere(b, at, x);
    WordIsHere(b, at + 2, y);
    WordIsHere(b, at + 4, z);
  }

  lemma SixWords(b: seq<Octet>, u: Word, v: Word, w: Word, x: Word, y: Word, z: Word)
    ensures Here(b, 0, EncodeWords(u, v, w) + EncodeWords(x, y, z)) <==>
              && |b| >= HEADER_BYTES && ReadWord(b, 0) == u && ReadWord(b, 2) == v && ReadWord(b, 4) == w
              && ReadWord(b, 6) == x && ReadWord(b, 8) == y && ReadWord(b, 10) == z
  {
    HereSplit(b, 0, EncodeWords(u, v, w), EncodeWords(x, y, z));
    WordsAreHere(b, 0, u, v, w);
    WordsAreHere(b, 6, x, y, z);
  }

  /** The header of a message, by position. */
  lemma HeaderSplit(b: seq<Octet>, m: Message)
    requires |m.questions| < 65536 && |m.answers| < 65536
    ensures |EncodeHeader(m)| == HEADER_BYTES
    ensures Here(b, 0, EncodeHeader(m)) <==>
              && |b| >= HEADER_BYTES && ReadWord(b, 0) == m.id && ReadWord(b, 2) == m.flags
              && ReadWord(b, 4) == |m.questions| && ReadWord(b, 6) == |m.answers|
              && ReadWord(b, 8) == m.nscount && ReadWord(b, 10) == m.arcount
  {
    var questions: Word, answers: Word := |m.questions|, |m.answers|;
    SixWords(b, m.id, m.flags, questions, answers, m.nscount, m.arcount);
    assert EncodeHeader(m) == EncodeWords(m.id, m.flags, questions) + EncodeWords(answers, m.nscount, m.arcount);
  }

  /** A message of the grammar that a response parser goes on with. */
  ghost predicate Meant(b: seq<Octet>, m: Message, id: Word) {
    MessageFits(m) && EncodeMessage(m) == b && m.id == id && Refusal(m.flags).None?
  }

  /** Four parts make up b exactly when each stands at its place. */
  lemma PartsSplit(b: seq<Octet>, h: seq<Octet>, q: seq<Octet>, a: seq<Octet>, rest: seq<Octet>)
    ensures h + (q + (a + rest)) == b <==>
              && Here(b, 0, h) && Here(b, |h|, q) && Here(b, |h| + |q|, a) && b[|h| + |q| + |a|..] == rest
  {
    var all := h + (q + (a + rest));
    HereSplit(b, 0, h, q + (a + rest));
    HereSplit(b, |h|, q, a + rest);
    HereSplit(b, |h| + |q|, a, rest);
    assert b[..|b|] == b;
    assert all == b <==> Here(b, 0, all) && |all| == |b|;
  }

  /** Where the sections of b begin and end when they hold qs and rs. */
  ghost predicate SectionsAre(b: seq<Octet>, qs: seq<Question>, rs: seq<Record>, at: nat, end: nat) {
    Section(b, HEADER_BYTES, EncodeQuestion, QuestionFits, qs, at) && Section(b, at, EncodeRecord, RecordFits, rs, end)
  }

  lemma SectionsSound(b: seq<Octet>) returns (qs: seq<Question>, rs: seq<Record>, at: nat, end: nat)
    requires |b| >= HEADER_BYTES && ReadSections(b).Some?
    ensures |qs| == ReadWord(b, 4) && |rs| == ReadWord(b, 6) && SectionsAre(b, qs, rs, at, end)
    ensures ReadSections(b) == Some(Map(RecordView, rs))
  {
    QuestionReaderIsExact(b);
    RecordReaderIsExact(b);
    qs, rs, at, end := TwoWalksSound(b, QuestionReader(b), EncodeQuestion, QuestionFits, QuestionView,
                                     RecordReader(b), EncodeRecord, RecordFits, RecordView,
                                     HEADER_BYTES, ReadWord(b, 4), ReadWord(b, 6));
  }

  lemma SectionsComplete(b: seq<Octet>, qs: seq<Question>, rs: seq<Record>, at: nat, end: nat)
    requires |b| >= HEADER_BYTES && SectionsAre(b, qs, rs, at, end)
    requires |qs| == ReadWord(b, 4) && |rs| == ReadWord(b, 6)
    ensures ReadSections(b) == Some(Map(RecordView, rs))
  {
    QuestionReaderIsExact(b);
    RecordReaderIsExact(b);
    TwoWalksComplete(b, QuestionReader(b), EncodeQuestion, QuestionFits, QuestionView,
                     RecordReader(b), EncodeRecord, RecordFits, RecordView, HEADER_BYTES, qs, rs, at, end);
  }

  lemma MessageSplit(b: seq<Octet>, m: Message, at: nat, end: nat)
    requires MessageFits(m)
    requires at == HEADER_BYTES + |Concat(EncodeQuestion, m.questions)| && end == at + |Concat(EncodeRecord, m.answers)|
    ensures EncodeMessage(m) == b <==>
              && Here(b, 0, EncodeHeader(m)) && SectionsAre(b, m.questions, m.answers, at, end)
              && b[end..] == m.rest
  {
    HeaderSplit(b, m);
    PartsSplit(b, EncodeHeader(m), Concat(EncodeQuestion, m.questions), Concat(EncodeRecord, m.answers), m.rest);
  }

  /** Whatever parses is a message of the grammar, and the answer is the one it carries. */
  lemma ParseIsSound(b: seq<Octet>, id: Word, port: Word) returns (m: Message)
    requires Parse(b, id, port).Ok?
    ensures Meant(b, m, id)
    ensures Parse(b, id, port) == Ok(Answer(Truncated(m.flags), AddressesOf(m.answers, port)))
  {
    var qs, rs, at, end := SectionsSound(b);
    m := Message(id, ReadWord(b, 2), ReadWord(b, 8), ReadWord(b, 10), qs, rs, b[end..]);
    HeaderSplit(b, m);
    MessageSplit(b, m, at, end);
    ViewAddresses(rs, port);
  }

  /** Every message of the grammar parses, to the answer it carries. */
  lemma ParseIsComplete(b: seq<Octet>, m: Message, id: Word, port: Word)
    requires Meant(b, m, id)
    ensures Parse(b, id, port) == Ok(Answer(Truncated(m.flags), AddressesOf(m.answers, port)))
  {
    var at := HEADER_BYTES + |Concat(EncodeQuestion, m.questions)|;
    var end := at + |Concat(EncodeRecord, m.answers)|;
    HeaderSplit(b, m);
    MessageSplit(b, m, at, end);
    SectionsComplete(b, m.questions, m.answers, at, end);
    ViewAddresses(m.answers, port);
  }

  /** The parser accepts exactly the messages of the grammar. */
  lemma ParseIsExact(b: seq<Octet>, id: Word, port: Word, answer: Answer)
    ensures Parse(b, id, port) == Ok(answer) <==>
              exists m :: Meant(b, m, id) && answer == Answer(Truncated(m.flags), AddressesOf(m.answers, port))
  {
    if Parse(b, id, port) == Ok(answer) {
      var m := ParseIsSound(b, id, port);
    }
    forall m | Meant(b, m, id) && answer == Answer(Truncated(m.flags), AddressesOf(m.answers, port))
      ensures Parse(b, id, port) == Ok(answer)
    {
      ParseIsComplete(b, m, id, port);
    }
  }
}
