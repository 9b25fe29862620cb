/** Event batches: a compact count followed by that many records. Reading one, unwrapping one, and joining many.
    The library that knows the record layout is a pair of functions. */
module EventBatches {
  import opened Options
  import opened Compact

  datatype EventRecord = EventRecord(id: int)

  /** What decoding one record at the front of some bytes gives: how far it got, and the record if it is an event. */
  datatype Parsed = Unreadable | Parsed(consumed: int, item: Option<EventRecord>)

  /** What decoding a whole vector under one of its type names gives. */
  datatype Whole = Events(events: seq<EventRecord>) | NoEvents(raised: bool)

  datatype Library = Library(vector: Bytes -> Whole, record: Bytes -> Parsed)

  function Tail(data: Bytes, offset: nat): Bytes {
    if offset <= |data| then data[offset..] else []
  }

  function Listed(item: Option<EventRecord>): seq<EventRecord> {
    if item.Some? then [item.value] else []
  }

  /** The record-by-record loop: stops early without error when a record consumes nothing. */
  function ReadRecords(lib: Library, data: Bytes, offset: nat, count: nat): Result<seq<EventRecord>>
    decreases count
  {
    if count == 0 then Ok([])
    else
      match lib.record(Tail(data, offset))
      case Unreadable => Err(Raised)
      case Parsed(consumed, item) =>
        if consumed <= 0 then Ok([])
        else
          After(Listed(item), ReadRecords(lib, data, offset + consumed, count - 1))
  }

  function After<T>(first: seq<T>, rest: Result<seq<T>>): Result<seq<T>> {
    match rest
    case Err(e) => Err(e)
    case Ok(more) => Ok(first + more)
  }

  lemma AfterJoins<T>(a: seq<T>, b: seq<T>, rest: Result<seq<T>>)
    ensures After([], rest) == rest && After(a + b, rest) == After(a, After(b, rest))
  {
    if rest.Ok? { assert [] + rest.value == rest.value && a + b + rest.value == a + (b + rest.value); }
  }

  function ReadOneByOne(lib: Library, data: Bytes): Result<seq<EventRecord>> {
    match Decode(data, 0)
    case Err(_) => Err(Raised)
    case Ok((count, offset)) => ReadRecords(lib, data, offset, count)
  }

  function DecodeVector(lib: Library, data: Bytes): Result<seq<EventRecord>> {
    var whole := lib.vector(data);
    if whole.Events? && whole.events != [] then Ok(whole.events)
    else
      var one := ReadOneByOne(lib, data);
      if one.Ok? && one.value == [] && whole == NoEvents(true) then Err(Raised) else one
  }

  /** Reading these bytes as a batch yields at least one event. */
  predicate Accepted(lib: Library, data: Bytes) {
    DecodeVector(lib, data).Ok? && DecodeVector(lib, data).value != []
  }

  /** The bytes of a batch: as they are, or taken out of a byte-vector wrapper; empty when neither reads as one. */
  function Normalize(lib: Library, raw: Bytes): Bytes {
    if raw == [] then []
    else if Accepted(lib, raw) then raw
    else
      match Decode(raw, 0)
      case Err(_) => []
      case Ok((len, offset)) =>
        if offset <= |raw| && offset + len == |raw| && Accepted(lib, raw[offset..]) then raw[offset..] else []
  }

  /** What one value adds to the count and the records. */
  function Part(lib: Library, raw: Bytes): Result<(nat, Bytes)> {
    var batch := Normalize(lib, raw);
    if batch == [] then Ok((0, []))
    else
      match Decode(batch, 0)
      case Err(e) => Err(e)
      case Ok((count, offset)) => Ok((count, Tail(batch, offset)))
  }

  function Parts(lib: Library, raws: seq<Bytes>): seq<Result<(nat, Bytes)>> {
    seq(|raws|, i requires 0 <= i < |raws| => Part(lib, raws[i]))
  }

  /** The count and the records of the first n parts. */
  function Gathered(parts: seq<Result<(nat, Bytes)>>, n: nat): Result<(nat, Bytes)>
    requires n <= |parts|
  {
    if n == 0 then Ok((0, []))
    else
      match Gathered(parts, n - 1)
      case Err(e) => Err(e)
      case Ok((total, payload)) =>
        match parts[n - 1]
        case Err(e) => Err(e)
        case Ok((count, records)) => Ok((total + count, payload + records))
  }

  function Headed(count: nat, payload: Bytes): Result<Bytes> {
    match Encode(count)
    case Err(e) => Err(e)
    case Ok(header) => Ok(header + payload)
  }

  function Join(lib: Library, raws: seq<Bytes>): Result<Bytes> {
    match Gathered(Parts(lib, raws), |raws|)
    case Err(e) => Err(e)
    case Ok((total, payload)) => Headed(total, payload)
  }

  // ---------- the loops ----------

  method DecodeEventRecords(lib: Library, data: Bytes) returns (r: Result<seq<EventRecord>>)
    ensures r == DecodeVector(lib, data)
  {
    var whole := lib.vector(data);
    if whole.Events? && whole.events != [] { return Ok(whole.events); }
    var header := Decode(data, 0);
    if header.Err? { return Err(Raised); }
    var left: nat, offset: nat := header.value.0, header.value.1;
    var collected: seq<EventRecord> := [];
    AfterJoins(collected, [], ReadRecords(lib, data, offset, left));
    while left > 0
      invariant ReadOneByOne(lib, data) == After(collected, ReadRecords(lib, data, offset, left))
    {
      var p := lib.record(Tail(data, offset));
      if p.Unreadable? { return Err(Raised); }
      if p.consumed <= 0 { break; }
      AfterJoins(collected, Listed(p.item), ReadRecords(lib, data, offset + p.consumed, left - 1));
      collected := collected + Listed(p.item);
      offset := offset + p.consumed;
      left := left - 1;
    }
    assert collected + [] == collected;
    if collected == [] && whole == NoEvents(true) { return Err(Raised); }
    return Ok(collected);
  }

  ghost predicate ArePartsOf(lib: Library, raws: seq<Bytes>, parts: seq<Result<(nat, Bytes)>>) {
    |parts| == |raws| && forall i {:trigger Part(lib, raws[i])} | 0 <= i < |raws| :: parts[i] == Part(lib, raws[i])
  }

  /** What the next value adds. */
  method ReadPart(lib: Library, raws: seq<Bytes>, i: nat, ghost parts: seq<Result<(nat, Bytes)>>)
    returns (part: Result<(nat, Bytes)>)
    requires i < |raws| && ArePartsOf(lib, raws, parts)
    ensures part == parts[i]
  {
    assert parts[i] == Part(lib, raws[i]);
    var batch := Normalize(lib, raws[i]);
    if batch == [] { return Ok((0, [])); }
    var header := Decode(batch, 0);
    if header.Err? { return Err(header.error); }
    return Ok((header.value.0, Tail(batch, header.value.1)));
  }

  /** The joining loop: the running total and payload, until a value fails. */
  method GatherBatches(lib: Library, raws: seq<Bytes>, ghost parts: seq<Result<(nat, Bytes)>>)
    returns (r: Result<(nat, Bytes)>)
    requires ArePartsOf(lib, raws, parts)
    ensures r == Gathered(parts, |parts|)
  {
    var total: nat, payload: Bytes := 0, [];
    var i := 0;
    while i < |raws|
      invariant i <= |raws| && Gathered(parts, i) == Ok((total, payload))
    {
      var part := ReadPart(lib, raws, i, parts);
      GatherTurn(parts, i, total, payload);
      if part.Err? { return Err(part.error); }
      total, payload := total + part.value.0, payload + part.value.1;
      i := i + 1;
    }
    return Ok((total, payload));
  }

  method CombineBatches(lib: Library, raws: seq<Bytes>) returns (r: Result<Bytes>)
    ensures r == Join(lib, raws)
  {
    var gathered := GatherBatches(lib, raws, Parts(lib, raws));
    if gathered.Err? { return Err(gathered.error); }
    return Headed(gathered.value.0, gathered.value.1);
  }

  lemma GatherTurn(parts: seq<Result<(nat, Bytes)>>, i: nat, total: nat, payload: Bytes)
    requires i < |parts| && Gathered(parts, i) == Ok((total, payload))
    ensures match parts[i]
            case Err(e) => Gathered(parts, |parts|) == Err(e)
            case Ok((count, records)) => Gathered(parts, i + 1) == Ok((total + count, payload + records))
  {
    if parts[i].Err? { ErrorsStay(parts, i + 1, |parts|); }
  }

  lemma {:induction false} ErrorsStay(parts: seq<Result<(nat, Bytes)>>, i: nat, n: nat)
    requires i <= n <= |parts| && Gathered(parts, i).Err?
    ensures Gathered(parts, n) == Gathered(parts, i)
    decreases n
  {
    if i < n { ErrorsStay(parts, i, n - 1); }
  }

  // ---------- what a batch carries ----------

  /** Records as bytes, each with the event it stands for, if any. */
  datatype Batch = Batch(chunks: seq<Bytes>, items: seq<Option<EventRecord>>)

  function Flat(chunks: seq<Bytes>): Bytes {
    if chunks == [] then [] else chunks[0] + Flat(chunks[1..])
  }

  function Present(items: seq<Option<EventRecord>>): seq<EventRecord> {
    if items == [] then [] else Listed(items[0]) + Present(items[1..])
  }

  /** A self-delimiting record: whatever follows it, decoding takes exactly its bytes. */
  ghost predicate IsRecord(lib: Library, chunk: Bytes, item: Option<EventRecord>) {
    |chunk| > 0 && forall suf: Bytes :: lib.record(chunk + suf) == Parsed(|chunk|, item)
  }

  ghost predicate Readable(lib: Library, b: Batch) {
    |b.items| == |b.chunks| && forall i | 0 <= i < |b.chunks| :: IsRecord(lib, b.chunks[i], b.items[i])
  }

  /** A compact count, in any of its accepted forms, followed by exactly that many self-delimiting records. */
  ghost predicate Frames(lib: Library, data: Bytes, b: Batch) {
    && Readable(lib, b) && Decode(data, 0).Ok?
    && Decode(data, 0).value.0 == |b.chunks|
    && Tail(data, Decode(data, 0).value.1) == Flat(b.chunks)
  }

  /** When the library knows the vector's type name, it reads what the record-by-record loop would. */
  ghost predicate Agrees(lib: Library) {
    forall data: Bytes :: lib.vector(data).Events? && lib.vector(data).events != [] ==>
      ReadOneByOne(lib, data) == Ok(lib.vector(data).events)
  }

  lemma RestReadable(lib: Library, b: Batch, rest: Batch)
    requires Readable(lib, b) && b.chunks != [] && rest == Batch(b.chunks[1..], b.items[1..])
    ensures Readable(lib, rest)
  {
    forall i | 0 <= i < |rest.chunks| ensures IsRecord(lib, rest.chunks[i], rest.items[i]) {
      assert IsRecord(lib, b.chunks[i + 1], b.items[i + 1]);
    }
  }

  lemma {:induction false} RecordsRead(lib: Library, data: Bytes, offset: nat, b: Batch)
    requires Readable(lib, b) && offset <= |data| && data[offset..] == Flat(b.chunks)
    ensures ReadRecords(lib, data, offset, |b.chunks|) == Ok(Present(b.items))
    decreases |b.chunks|
  {
    if b.chunks != [] {
      assert IsRecord(lib, b.chunks[0], b.items[0]);
      var next := offset + |b.chunks[0]|;
      assert data[next..] == data[offset..][|b.chunks[0]|..] == Flat(b.chunks[1..]);
      var rest := Batch(b.chunks[1..], b.items[1..]);
      RestReadable(lib, b, rest);
      RecordsRead(lib, data, next, rest);
    }
  }

  /** Where the loop ends before its count: at an unreadable record with an error, at one that takes no bytes with what
      was read before it. */
  lemma {:induction false} ReadingEnds(lib: Library, data: Bytes, offset: nat, b: Batch, rest: Bytes, count: nat)
    requires Readable(lib, b) && offset <= |data| && data[offset..] == Flat(b.chunks) + rest && count > |b.chunks|
    ensures lib.record(rest) == Unreadable ==> ReadRecords(lib, data, offset, count) == Err(Raised)
    ensures lib.record(rest).Parsed? && lib.record(rest).consumed <= 0 ==>
              ReadRecords(lib, data, offset, count) == Ok(Present(b.items))
    decreases |b.chunks|
  {
    if b.chunks == [] {
      assert Tail(data, offset) == rest;
    } else {
      assert IsRecord(lib, b.chunks[0], b.items[0]);
      var next := offset + |b.chunks[0]|;
      assert data[offset..] == b.chunks[0] + (Flat(b.chunks[1..]) + rest);
      assert data[next..] == data[offset..][|b.chunks[0]|..] == Flat(b.chunks[1..]) + rest;
      var later := Batch(b.chunks[1..], b.items[1..]);
      RestReadable(lib, b, later);
      ReadingEnds(lib, data, next, later, rest, count - 1);
    }
  }

  /** A vector the library can read as a whole is what it says; otherwise the records are read one by one, and finding
      none is an error only if the whole could not be decoded. */
  lemma WholeOrOneByOne(lib: Library, data: Bytes)
    ensures var r, one := DecodeVector(lib, data), ReadOneByOne(lib, data);
            match lib.vector(data)
            case Events(events) => r == if events != [] then Ok(events) else one
            case NoEvents(raised) => r == if raised && one == Ok([]) then Err(Raised) else one
  {}

  lemma FramedIsRead(lib: Library, data: Bytes, b: Batch)
    requires Frames(lib, data, b)
    ensures ReadOneByOne(lib, data) == Ok(Present(b.items))
    ensures Agrees(lib) && Present(b.items) != [] ==> DecodeVector(lib, data) == Ok(Present(b.items))
  {
    DecodeIsLocal(data, 0, [], []);
    RecordsRead(lib, data, Decode(data, 0).value.1, b);
  }

  // ---------- unwrapping ----------

  /** How a storage value can carry a batch: directly, inside a byte vector, or by holding none. */
  ghost predicate Carries(lib: Library, raw: Bytes, b: Batch) {
    || (Frames(lib, raw, b) && Present(b.items) != [])
    || (!Accepted(lib, raw) && Present(b.items) != [] && Decode(raw, 0).Ok?
        && var (len, offset) := Decode(raw, 0).value;
           offset <= |raw| && offset + len == |raw| && Frames(lib, raw[offset..], b))
    || (raw in {[], [0]} && b == Batch([], []))
  }

  lemma NothingInEmpty(lib: Library)
    requires Agrees(lib)
    ensures !Accepted(lib, []) && Normalize(lib, [0]) == []
  {
    assert ReadOneByOne(lib, []) == Err(Raised);
    var zero: Bytes := [0];
    assert Decode(zero, 0) == Ok((0, 1));
    assert ReadOneByOne(lib, zero) == Ok([]);
    assert zero[1..] == [];
  }

  /** Unwrapping finds the batch. */
  lemma NormalizeFinds(lib: Library, raw: Bytes, b: Batch)
    requires Agrees(lib) && Carries(lib, raw, b)
    ensures if b == Batch([], []) then Normalize(lib, raw) == []
            else Normalize(lib, raw) != [] && Frames(lib, Normalize(lib, raw), b)
  {
    if Frames(lib, raw, b) && Present(b.items) != [] {
      FramedIsRead(lib, raw, b);
    } else if Present(b.items) != [] {
      FramedIsRead(lib, raw[Decode(raw, 0).value.1..], b);
    } else {
      NothingInEmpty(lib);
    }
  }

  ghost predicate ReadsEvents(lib: Library, data: Bytes) {
    exists events: seq<EventRecord> :: events != [] && DecodeVector(lib, data) == Ok(events)
  }

  /** Unwrapping never invents a batch: what it returns reads as events and is the value itself, preferred, or what
      follows a length that covers exactly the rest of it. It returns nothing exactly when neither reads as events. */
  lemma UnwrapsExactly(lib: Library, raw: Bytes, offset: nat)
    requires Decode(raw, 0).Ok? ==> offset == Decode(raw, 0).value.1
    ensures var batch := Normalize(lib, raw);
            var wraps := Decode(raw, 0).Ok? && offset <= |raw| && Decode(raw, 0).value.0 == |raw| - offset;
            if raw != [] && ReadsEvents(lib, raw) then batch == raw
            else if raw != [] && wraps && ReadsEvents(lib, raw[offset..]) then batch == raw[offset..]
            else batch == []
  {
    AcceptedReads(lib, raw);
    if offset <= |raw| { AcceptedReads(lib, raw[offset..]); }
  }

  lemma AcceptedReads(lib: Library, data: Bytes)
    ensures Accepted(lib, data) <==> ReadsEvents(lib, data)
  {
    if Accepted(lib, data) {
      var events := DecodeVector(lib, data).value;
      assert events != [] && DecodeVector(lib, data) == Ok(events);
    }
  }

  // ---------- joining ----------

  /** The first n batches as one. */
  function Joined(bs: seq<Batch>, n: nat): Batch
    requires n <= |bs|
  {
    if n == 0 then Batch([], [])
    else
      var before := Joined(bs, n - 1);
      Batch(before.chunks + bs[n - 1].chunks, before.items + bs[n - 1].items)
  }

  /** The events of the first n batches, one batch after the other. */
  function AllEvents(bs: seq<Batch>, n: nat): seq<EventRecord>
    requires n <= |bs|
  {
    if n == 0 then [] else AllEvents(bs, n - 1) + Present(bs[n - 1].items)
  }

  lemma {:induction false} FlatJoins(a: seq<Bytes>, b: seq<Bytes>)
    ensures Flat(a + b) == Flat(a) + Flat(b)
    decreases |a|
  {
    if a == [] {
      assert a + b == b;
    } else {
      assert (a + b)[1..] == a[1..] + b;
      FlatJoins(a[1..], b);
    }
  }

  lemma {:induction false} PresentJoins(a: seq<Option<EventRecord>>, b: seq<Option<EventRecord>>)
    ensures Present(a + b) == Present(a) + Present(b)
    decreases |a|
  {
    if a == [] {
      assert a + b == b;
    } else {
      assert (a + b)[1..] == a[1..] + b;
      PresentJoins(a[1..], b);
    }
  }

  lemma {:induction false} JoinedEvents(bs: seq<Batch>, n: nat)
    requires n <= |bs|
    ensures Present(Joined(bs, n).items) == AllEvents(bs, n)
  {
    if n > 0 {
      JoinedEvents(bs, n - 1);
      PresentJoins(Joined(bs, n - 1).items, bs[n - 1].items);
    }
  }

  ghost predicate AllCarry(lib: Library, raws: seq<Bytes>, bs: seq<Batch>) {
    |raws| == |bs| && forall i | 0 <= i < |raws| :: Carries(lib, raws[i], bs[i])
  }

  lemma JoinReadable(lib: Library, a: Batch, b: Batch)
    requires Readable(lib, a) && Readable(lib, b)
    ensures Readable(lib, Batch(a.chunks + b.chunks, a.items + b.items))
  {}

  lemma {:induction false} JoinedReadable(lib: Library, bs: seq<Batch>, n: nat)
    requires n <= |bs| && forall i | 0 <= i < |bs| :: Readable(lib, bs[i])
    ensures Readable(lib, Joined(bs, n))
  {
    if n > 0 {
      JoinedReadable(lib, bs, n - 1);
      JoinReadable(lib, Joined(bs, n - 1), bs[n - 1]);
    }
  }

  lemma CarriedReadable(lib: Library, raws: seq<Bytes>, bs: seq<Batch>)
    requires AllCarry(lib, raws, bs)
    ensures Readable(lib, Joined(bs, |bs|))
  {
    forall i | 0 <= i < |bs| ensures Readable(lib, bs[i]) { assert Carries(lib, raws[i], bs[i]); }
    JoinedReadable(lib, bs, |bs|);
  }

  lemma CarriedPart(lib: Library, raw: Bytes, b: Batch)
    requires Agrees(lib) && Carries(lib, raw, b)
    ensures Part(lib, raw) == Ok((|b.chunks|, Flat(b.chunks)))
  {
    NormalizeFinds(lib, raw, b);
  }

  predicate PartsOf(parts: seq<Result<(nat, Bytes)>>, bs: seq<Batch>) {
    |parts| == |bs| && forall i | 0 <= i < |bs| :: parts[i] == Ok((|bs[i].chunks|, Flat(bs[i].chunks)))
  }

  lemma CarriedParts(lib: Library, raws: seq<Bytes>, bs: seq<Batch>)
    requires Agrees(lib) && AllCarry(lib, raws, bs)
    ensures PartsOf(Parts(lib, raws), bs)
  {
    forall i | 0 <= i < |bs| ensures Part(lib, raws[i]) == Ok((|bs[i].chunks|, Flat(bs[i].chunks))) {
      CarriedPart(lib, raws[i], bs[i]);
    }
  }

  /** The count and the records the loop has collected are those of the batches joined so far. */
  lemma {:induction false} GatheredIsJoined(parts: seq<Result<(nat, Bytes)>>, bs: seq<Batch>, n: nat)
    requires PartsOf(parts, bs) && n <= |bs|
    ensures Gathered(parts, n) == Ok((|Joined(bs, n).chunks|, Flat(Joined(bs, n).chunks)))
  {
    if n > 0 {
      GatheredIsJoined(parts, bs, n - 1);
      FlatJoins(Joined(bs, n - 1).chunks, bs[n - 1].chunks);
    }
  }

  /** A count in front of the records it counts is a batch. */
  lemma CountedIsFramed(lib: Library, b: Batch, out: Bytes)
    requires Readable(lib, b) && |b.chunks| < 0x1_0000_0000
    requires Headed(|b.chunks|, Flat(b.chunks)) == Ok(out)
    ensures Frames(lib, out, b)
  {
    var flat := Flat(b.chunks);
    var count := Encode(|b.chunks|).value;
    DecodeUndoesEncode(|b.chunks|, [], flat);
    assert out == [] + count + flat;
    assert Tail(out, |count|) == flat;
  }

  /** Joining preserves meaning: when every value carries a batch and fewer than 2 to the 32 records come together, the
      joined bytes are a batch again, and reading it gives the events of all batches in order. */
  lemma JoiningPreservesEvents(lib: Library, raws: seq<Bytes>, bs: seq<Batch>, all: Batch, events: seq<EventRecord>)
    requires Agrees(lib) && AllCarry(lib, raws, bs) && all == Joined(bs, |bs|) && events == AllEvents(bs, |bs|)
    requires |all.chunks| < 0x1_0000_0000
    ensures Join(lib, raws).Ok? && Frames(lib, Join(lib, raws).value, all)
    ensures ReadOneByOne(lib, Join(lib, raws).value) == Ok(events)
    ensures events != [] ==> DecodeVector(lib, Join(lib, raws).value) == Ok(events)
  {
    CarriedParts(lib, raws, bs);
    GatheredIsJoined(Parts(lib, raws), bs, |bs|);
    CarriedReadable(lib, raws, bs);
    JoinedEvents(bs, |bs|);
    DecodeUndoesEncode(|all.chunks|, [], []);
    var joined := Join(lib, raws);
    CountedIsFramed(lib, all, joined.value);
    FramedIsRead(lib, joined.value, all);
  }

  /** Joining fails as soon as one value fails, with the first failure; otherwise the total is written in front. */
  lemma {:induction false} GatheringFailsIff(parts: seq<Result<(nat, Bytes)>>, n: nat)
    requires n <= |parts|
    ensures Gathered(parts, n).Err? <==> exists i | 0 <= i < n :: parts[i].Err?
    ensures forall i | 0 <= i < n && parts[i].Err? && (forall j | 0 <= j < i :: parts[j].Ok?) ::
              Gathered(parts, n) == Err(parts[i].error)
  {
    if n > 0 { GatheringFailsIff(parts, n - 1); }
  }

  /** Beyond that the count is written but cannot be read back. */
  lemma TooManyRecordsCannotBeRead(lib: Library, raws: seq<Bytes>, bs: seq<Batch>, all: Batch)
    requires Agrees(lib) && AllCarry(lib, raws, bs) && all == Joined(bs, |bs|) && |all.chunks| >= 0x1_0000_0000
    requires Join(lib, raws).Ok?
    ensures ReadOneByOne(lib, Join(lib, raws).value) == Err(Raised)
  {
    CarriedParts(lib, raws, bs);
    GatheredIsJoined(Parts(lib, raws), bs, |bs|);
    BigDecodeFails(|all.chunks|, Flat(all.chunks));
  }

  lemma BigDecodeFails(value: nat, suf: Bytes)
    requires value >= 0x1_0000_0000 && Encode(value).Ok?
    ensures Decode(Encode(value).value + suf, 0) == Err(TooLarge)
  {
    BigEncoding(value);
    var e := Encode(value).value;
    assert (e + suf)[1..|e|] == Little(value, ByteLength(value));
  }
}
