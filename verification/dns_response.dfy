/** The bounded DNS answer walker used by the provider probe, and the wire grammar of
    sections 4.1.1 to 4.1.4 of RFC 1035 that it recognises. */
module DnsResponse {
  import opened Options

  type Octet = n: nat | n < 256

  type Bytes = seq<Octet>

  /** Two octets in network order. */
  function Big(high: nat, low: nat): nat {
    high * 256 + low
  }

  function Word(b: Bytes, at: nat): (w: nat)
    requires at + 2 <= |b|
    ensures w < 65536
  {
    Big(b[at], b[at + 1])
  }

  // ----- The grammar: what stands where in a message -----

  /** A domain name as sent: labels ended by the root or by a compression pointer. */
  datatype Name = Root | Pointer(high: Octet, low: Octet) | Label(text: Bytes, rest: Name)

  /** A resource record; type, class, time to live and data length are kept as the octets sent. */
  datatype Record = Record(name: Name, kind: Bytes, klass: Bytes, ttl: Bytes, size: Bytes, data: Bytes)

  /** `b` at `at` begins with `part`. */
  predicate Holds(b: Bytes, at: nat, part: Bytes)
  {
    at + |part| <= |b| && forall i | 0 <= i < |part| :: b[at + i] == part[i]
  }

  function NameSize(n: Name): (size: nat)
    ensures size > 0
  {
    match n
    case Root => 1
    case Pointer(_, _) => 2
    case Label(text, rest) => 1 + |text| + NameSize(rest)
  }

  /** The well-formed name `n` stands at `at`, with at most `budget` labels. */
  predicate NameStands(b: Bytes, at: nat, n: Name, budget: nat)
    decreases n
  {
    at + NameSize(n) <= |b| &&
    match n
    case Root => b[at] == 0
    case Pointer(high, low) => high < 64 && b[at] == 192 + high && b[at + 1] == low && 12 <= Big(high, low) < |b|
    case Label(text, rest) =>
      1 <= |text| <= 63 && budget > 0 && b[at] == |text| && Holds(b, at + 1, text) &&
      NameStands(b, at + 1 + |text|, rest, budget - 1)
  }

  function RecordSize(r: Record): nat {
    NameSize(r.name) + 10 + |r.data|
  }

  predicate RecordStands(b: Bytes, at: nat, r: Record)
  {
    NameStands(b, at, r.name, 127) && BodyStands(b, at + NameSize(r.name), r)
  }

  predicate BodyStands(b: Bytes, head: nat, r: Record)
  {
    && |r.kind| == |r.klass| == |r.size| == 2 && |r.ttl| == 4 && |r.data| == Word(r.size, 0)
    && Holds(b, head, r.kind) && Holds(b, head + 2, r.klass) && Holds(b, head + 4, r.ttl)
    && Holds(b, head + 8, r.size) && Holds(b, head + 10, r.data)
  }

  predicate IsAddress(r: Record)
  {
    r.kind == [0, 1] && r.klass == [0, 1] && |r.data| == 4
  }

  /** The part of an answer section that decides: records passed over, then the answer. */
  datatype Section = Last(answer: Record) | Passed(record: Record, rest: Section)

  /** `section` stands at `at` within `room` records: those passed over are no IPv4 address answer,
      the last one is, and its address is not 0.0.0.0. */
  predicate SectionStands(b: Bytes, at: nat, section: Section, room: nat)
    decreases section
  {
    room > 0 &&
    match section
    case Last(r) => RecordStands(b, at, r) && IsAddress(r) && r.data != [0, 0, 0, 0]
    case Passed(r, rest) =>
      RecordStands(b, at, r) && !IsAddress(r) && SectionStands(b, at + RecordSize(r), rest, room - 1)
  }

  ghost predicate Answered(b: Bytes, at: nat, room: nat)
  {
    exists section :: SectionStands(b, at, section, room)
  }

  /** The header echoes the identifier, is a response without truncation or error code, carries one
      question, and the question section is the query's. */
  predicate HeaderOk(response: Bytes, query: Bytes)
    requires |query| >= 12
  {
    && |response| >= |query|
    && response[..2] == query[..2]
    && Word(response, 2) / 0x8000 == 1
    && Word(response, 2) / 0x200 % 2 == 0
    && Word(response, 2) % 16 == 0
    && Word(response, 4) == 1
    && 1 <= Word(response, 6) <= 64
    && response[12..|query|] == query[12..]
  }

  ghost predicate Proves(response: Bytes, query: Bytes)
    requires |query| >= 12
  {
    HeaderOk(response, query) && Answered(response, |query|, Word(response, 6))
  }

  // ----- Reading names and records back -----

  function NameEnd(b: Bytes, at: nat, budget: nat): (end: Option<nat>)
    ensures end.Some? ==> at < end.value <= |b|
    decreases budget
  {
    if at >= |b| then None
    else
      var size: nat := b[at];
      if size == 0 then Some(at + 1)
      else if size >= 192 then
        if at + 1 < |b| && 12 <= Big(size - 192, b[at + 1]) < |b| then Some(at + 2) else None
      else if size > 63 || at + 1 + size > |b| || budget == 0 then None
      else NameEnd(b, at + 1 + size, budget - 1)
  }

  /** A well-formed name is read to its end. */
  lemma {:induction false} NameReadable(b: Bytes, at: nat, n: Name, budget: nat)
    requires NameStands(b, at, n, budget)
    ensures NameEnd(b, at, budget) == Some(at + NameSize(n))
    decreases n
  {
    if n.Label? {
      NameReadable(b, at + 1 + |n.text|, n.rest, budget - 1);
    }
  }

  /** Whatever is read as a name is a well-formed name. */
  lemma {:induction false} NameWritten(b: Bytes, at: nat, budget: nat) returns (n: Name)
    requires NameEnd(b, at, budget).Some?
    ensures NameStands(b, at, n, budget) && at + NameSize(n) == NameEnd(b, at, budget).value
    decreases budget
  {
    var size: nat := b[at];
    if size == 0 {
      n := Root;
    } else if size >= 192 {
      n := Pointer(size - 192, b[at + 1]);
    } else {
      var rest := NameWritten(b, at + 1 + size, budget - 1);
      n := Label(b[at + 1..at + 1 + size], rest);
    }
  }

  /** A name is read exactly when a well-formed one stands there, and to the end of that one. */
  lemma NameDecided(b: Bytes, at: nat, budget: nat)
    ensures NameEnd(b, at, budget).Some? ==> exists n :: NameStands(b, at, n, budget)
    ensures (exists n :: NameStands(b, at, n, budget)) ==> NameEnd(b, at, budget).Some?
    ensures forall n | NameStands(b, at, n, budget) :: NameEnd(b, at, budget) == Some(at + NameSize(n))
  {
    if NameEnd(b, at, budget).Some? {
      var n := NameWritten(b, at, budget);
    }
    forall n | NameStands(b, at, n, budget)
      ensures NameEnd(b, at, budget) == Some(at + NameSize(n))
    {
      NameReadable(b, at, n, budget);
    }
  }

  /** A record read at one place: where it ends, whether it is an IPv4 address, and its data. */
  datatype Parsed = Parsed(end: nat, address: bool, data: Bytes)

  /** What follows a record's name. */
  function BodyAt(b: Bytes, head: nat): (p: Option<Parsed>)
    ensures p.Some? ==> head < p.value.end <= |b|
  {
    if head + 10 > |b| then None
    else
      var size := Word(b, head + 8);
      if head + 10 + size > |b| then None
      else Some(Parsed(head + 10 + size, Word(b, head) == 1 && Word(b, head + 2) == 1 && size == 4,
                       b[head + 10..head + 10 + size]))
  }

  function RecordAt(b: Bytes, at: nat): (p: Option<Parsed>)
    ensures p.Some? ==> at < p.value.end <= |b|
  {
    match NameEnd(b, at, 127)
    case None => None
    case Some(head) => BodyAt(b, head)
  }

  lemma WordRead(b: Bytes, at: nat, w: Bytes)
    requires |w| == 2 && Holds(b, at, w)
    ensures Word(b, at) == Word(w, 0)
    ensures Word(b, at) == 1 <==> w == [0, 1]
  {
    assert b[at + 0] == w[0] && b[at + 1] == w[1];
  }

  lemma BodyReadable(b: Bytes, head: nat, r: Record)
    requires BodyStands(b, head, r)
    ensures BodyAt(b, head) == Some(Parsed(head + 10 + |r.data|, IsAddress(r), r.data))
  {
    WordRead(b, head, r.kind);
    WordRead(b, head + 2, r.klass);
    WordRead(b, head + 8, r.size);
    assert b[head + 10..head + 10 + |r.data|] == r.data;
  }

  lemma BodyWritten(b: Bytes, head: nat, name: Name) returns (r: Record)
    requires BodyAt(b, head).Some?
    ensures r.name == name && BodyStands(b, head, r)
    ensures BodyAt(b, head) == Some(Parsed(head + 10 + |r.data|, IsAddress(r), r.data))
  {
    var size := Word(b, head + 8);
    r := Record(name, b[head..head + 2], b[head + 2..head + 4], b[head + 4..head + 8], b[head + 8..head + 10],
                b[head + 10..head + 10 + size]);
    WordRead(b, head + 8, r.size);
    BodyReadable(b, head, r);
  }

  /** A record that stands in the message is read back with its end, its class and its data. */
  lemma RecordReadable(b: Bytes, at: nat, r: Record)
    requires RecordStands(b, at, r)
    ensures RecordAt(b, at) == Some(Parsed(at + RecordSize(r), IsAddress(r), r.data))
  {
    NameReadable(b, at, r.name, 127);
    BodyReadable(b, at + NameSize(r.name), r);
  }

  /** Whatever is read as a record is a record that stands there. */
  lemma RecordWritten(b: Bytes, at: nat) returns (r: Record)
    requires RecordAt(b, at).Some?
    ensures RecordStands(b, at, r)
    ensures RecordAt(b, at) == Some(Parsed(at + RecordSize(r), IsAddress(r), r.data))
  {
    var name := NameWritten(b, at, 127);
    r := BodyWritten(b, at + NameSize(name), name);
  }

  /** The answer section read record by record. */
  predicate Found(b: Bytes, at: nat, room: nat)
    decreases room
  {
    room > 0 && RecordAt(b, at).Some? &&
    var p := RecordAt(b, at).value;
    if p.address then p.data != [0, 0, 0, 0] else Found(b, p.end, room - 1)
  }

  lemma {:induction false} AnsweredIsFound(b: Bytes, at: nat, section: Section, room: nat)
    requires SectionStands(b, at, section, room)
    ensures Found(b, at, room)
    decreases section
  {
    hide RecordAt, RecordStands;
    match section
    case Last(r) => RecordReadable(b, at, r);
    case Passed(r, rest) =>
      RecordReadable(b, at, r);
      AnsweredIsFound(b, at + RecordSize(r), rest, room - 1);
  }

  lemma {:induction false} FoundIsAnswered(b: Bytes, at: nat, room: nat) returns (section: Section)
    requires Found(b, at, room)
    ensures SectionStands(b, at, section, room)
    decreases room
  {
    hide RecordAt, RecordStands;
    var p := RecordAt(b, at).value;
    var r := RecordWritten(b, at);
    assert p == Parsed(at + RecordSize(r), IsAddress(r), r.data);
    if p.address {
      section := Last(r);
    } else {
      var rest := FoundIsAnswered(b, at + RecordSize(r), room - 1);
      section := Passed(r, rest);
    }
  }

  /** Reading record by record decides whether the section, by the grammar, holds an answer. */
  lemma FoundIffAnswered(b: Bytes, at: nat, room: nat)
    ensures Found(b, at, room) <==> Answered(b, at, room)
  {
    if Found(b, at, room) {
      var section := FoundIsAnswered(b, at, room);
    }
    if Answered(b, at, room) {
      var section :| SectionStands(b, at, section, room);
      AnsweredIsFound(b, at, section, room);
    }
  }

  /** Walks one name, advancing `offset` label by label. */
  method SkipName(b: Bytes, at: nat) returns (end: Option<nat>)
    ensures end.Some? <==> exists n :: NameStands(b, at, n, 127)
    ensures forall n | NameStands(b, at, n, 127) :: end == Some(at + NameSize(n))
    ensures end == NameEnd(b, at, 127)
  {
    NameDecided(b, at, 127);
    var offset, labels := at, 0;
    while offset < |b|
      invariant labels <= 127
      invariant NameEnd(b, at, 127) == NameEnd(b, offset, 127 - labels)
      decreases |b| - offset
    {
      var size: nat := b[offset];
      offset := offset + 1;
      if size == 0 {
        return Some(offset);
      }
      if size >= 192 {
        if offset >= |b| {
          return None;
        }
        var pointer := Big(size - 192, b[offset]);
        offset := offset + 1;
        if !(12 <= pointer < |b|) {
          return None;
        }
        return Some(offset);
      }
      if size > 63 || offset + size > |b| {
        return None;
      }
      offset := offset + size;
      labels := labels + 1;
      if labels > 127 {
        return None;
      }
    }
    return None;
  }

  /** Reads the fixed part and the data behind a record's name. */
  method ReadRecord(b: Bytes, at: nat) returns (p: Option<Parsed>)
    ensures p == RecordAt(b, at)
  {
    var name := SkipName(b, at);
    if name.None? || name.value + 10 > |b| {
      return None;
    }
    var head := name.value;
    var kind, klass, size := Word(b, head), Word(b, head + 2), Word(b, head + 8);
    if head + 10 + size > |b| {
      return None;
    }
    return Some(Parsed(head + 10 + size, kind == 1 && klass == 1 && size == 4, b[head + 10..head + 10 + size]));
  }

  /** Walks at most `answers` records and stops at the first IPv4 address. */
  method WalkAnswers(b: Bytes, start: nat, answers: nat) returns (ok: bool)
    ensures ok <==> Answered(b, start, answers)
  {
    FoundIffAnswered(b, start, answers);
    var offset: nat := start;
    ghost var goal := Found(b, start, answers);
    for i := 0 to answers
      invariant goal == Found(b, offset, answers - i)
    {
      var record := ReadRecord(b, offset);
      if record.None? {
        return false;
      }
      if record.value.address {
        return record.value.data != [0, 0, 0, 0];
      }
      offset := record.value.end;
    }
    return false;
  }

  /** Accepts a response exactly when it proves an answer; never reads outside it, for any bytes. */
  method ValidDnsResponse(response: Bytes, query: Bytes) returns (ok: bool)
    requires |query| >= 12
    ensures ok <==> Proves(response, query)
  {
    if |response| < |query| || response[..2] != query[..2] {
      return false;
    }
    var flags, questions, answers := Word(response, 2), Word(response, 4), Word(response, 6);
    if flags / 0x8000 == 0 || flags / 0x200 % 2 == 1 || flags % 16 != 0 || questions != 1 ||
       !(1 <= answers <= 64) || response[12..|query|] != query[12..]
    {
      return false;
    }
    ok := WalkAnswers(response, |query|, answers);
  }
}
