/** The decision step of the query handler: from a question and the record
    table to the list of answer RRsets, or the exception that aborts the
    query. The DNS library's record constructors and text parser are not
    modelled; a `Builder` says which record data they accept. */
module Resolver {
  import opened Results
  import opened PyValues
  import opened Zone

  /** The Internet class code. */
  const IN: u16 := 1

  /** The record data the handler asks the library to build. An MX or SOA
      record holds the stored values passed to its constructor; text-parsed
      data holds the type and the stored value the parser was given. */
  datatype Rdata =
    | MxRdata(preference: Value, exchange: Value)
    | SoaRdata(mname: Value, rname: Value, serial: Value, refresh: Value,
               retry: Value, expire: Value, minimum: Value)
    | TextRdata(rtype: RType, text: Value)

  /** One answer RRset as the handler appends it: owner, class, type and the
      single record data added to it. */
  datatype RRset = RRset(owner: string, rclass: u16, rtype: RType, rdata: Rdata)

  /** The first question of a request: its name in text form and its type. */
  datatype Question = Question(name: string, qtype: RType)

  /** Which record data the library builds without raising. */
  type Builder = Rdata -> bool

  /** The exception building the MX record for one stored item raises, if any:
      the item must unpack into (preference, target) and the library must
      accept the pair. */
  function MxItemFault(accepts: Builder, item: Value): Option<Fault>
  {
    var pair := Unpack(item, 2);
    if pair.Err? then Some(pair.error)
    else if !accepts(MxRdata(pair.value[0], pair.value[1])) then Some(LibraryError)
    else None
  }

  /** The MX RRset built from one stored (preference, target) item. */
  function MxRecord(owner: string, item: Value): RRset
    requires Unpack(item, 2).Ok?
  {
    var pair := Unpack(item, 2).value;
    RRset(owner, IN, MX, MxRdata(pair[0], pair[1]))
  }

  /** The MX loop over the iterated items: it succeeds exactly when every item
      builds, and then yields one RRset per item, in the items' order. */
  function MxRecords(accepts: Builder, owner: string, items: seq<Value>): (r: Result<seq<RRset>, Fault>)
    ensures r.Ok? <==> forall k :: 0 <= k < |items| ==> MxItemFault(accepts, items[k]).None?
    ensures r.Ok? ==> |r.value| == |items|
    ensures r.Ok? ==> forall k :: 0 <= k < |items| ==>
              Unpack(items[k], 2).Ok? && r.value[k] == MxRecord(owner, items[k])
  {
    if |items| == 0 then Ok([])
    else match MxItemFault(accepts, items[0])
      case Some(fault) => Err(fault)
      case None =>
        var rest := MxRecords(accepts, owner, items[1..]);
        if rest.Err? then rest else Ok([MxRecord(owner, items[0])] + rest.value)
  }

  /** The whole MX branch: iterate the stored value, then build each item. */
  function MxAnswer(accepts: Builder, owner: string, data: Value): (r: Result<seq<RRset>, Fault>)
    ensures data.Int? ==> r == Err(TypeError)
    ensures r.Ok? <==> !data.Int? && forall k :: 0 <= k < |Iterate(data).value| ==> MxItemFault(accepts, Iterate(data).value[k]).None?
    ensures r.Ok? ==> |r.value| == |Iterate(data).value|
    ensures r.Ok? ==> forall k :: 0 <= k < |r.value| ==>
              var pair := Unpack(Iterate(data).value[k], 2);
              pair.Ok? && r.value[k] == RRset(owner, IN, MX, MxRdata(pair.value[0], pair.value[1]))
  {
    match Iterate(data)
    case Err(fault) => Err(fault)
    case Ok(items) => MxRecords(accepts, owner, items)
  }

  /** `prefix` put in front of a successful result; a failure stays a failure. */
  function Prepend(prefix: seq<RRset>, rest: Result<seq<RRset>, Fault>): Result<seq<RRset>, Fault>
  {
    if rest.Ok? then Ok(prefix + rest.value) else rest
  }

  /** One step of the MX loop: the items from `k` on either fail at item `k`
      or contribute its RRset in front of the rest. */
  lemma MxRecordsStep(accepts: Builder, owner: string, items: seq<Value>, k: nat)
    requires k < |items|
    ensures MxItemFault(accepts, items[k]).Some? ==>
              MxRecords(accepts, owner, items[k..]) == Err(MxItemFault(accepts, items[k]).value)
    ensures MxItemFault(accepts, items[k]).None? ==>
              MxRecords(accepts, owner, items[k..]) == Prepend([MxRecord(owner, items[k])], MxRecords(accepts, owner, items[k + 1..]))
  {
    assert items[k..][0] == items[k];
    assert items[k..][1..] == items[k + 1..];
  }

  /** Putting `b` and then `a` in front is putting `a + b` in front. */
  lemma PrependTwice(a: seq<RRset>, b: seq<RRset>, rest: Result<seq<RRset>, Fault>)
    ensures Prepend(a, Prepend(b, rest)) == Prepend(a + b, rest)
  {
    if rest.Ok? {
      assert a + (b + rest.value) == (a + b) + rest.value;
    }
  }

  /** Putting nothing in front changes nothing, and putting `a` in front of an
      empty success gives `a`. */
  lemma PrependEmpty(a: seq<RRset>, rest: Result<seq<RRset>, Fault>)
    ensures Prepend([], rest) == rest
    ensures Prepend(a, Ok([])) == Ok(a)
  {
    if rest.Ok? {
      assert [] + rest.value == rest.value;
    }
    assert a + [] == a;
  }

  /** The MX branch written as the handler's loop: for each item, unpack it,
      append an RRset for it, and add the library-built record. It computes the
      same outcome as the recursive definition. */
  method BuildMxAnswer(accepts: Builder, owner: string, data: Value) returns (r: Result<seq<RRset>, Fault>)
    ensures r == MxAnswer(accepts, owner, data)
  {
    var it := Iterate(data);
    if it.Err? {
      return Err(it.error);
    }
    var items := it.value;
    var answer: seq<RRset> := [];
    var k := 0;
    assert items[k..] == items;
    PrependEmpty(answer, MxRecords(accepts, owner, items));
    while k < |items|
      invariant 0 <= k <= |items|
      invariant MxRecords(accepts, owner, items) == Prepend(answer, MxRecords(accepts, owner, items[k..]))
    {
      MxRecordsStep(accepts, owner, items, k);
      var pair := Unpack(items[k], 2);
      if pair.Err? {
        return Err(pair.error);
      }
      var rdata := MxRdata(pair.value[0], pair.value[1]);
      PrependTwice(answer, [RRset(owner, IN, MX, rdata)], MxRecords(accepts, owner, items[k + 1..]));
      answer := answer + [RRset(owner, IN, MX, rdata)];
      if !accepts(rdata) {
        return Err(LibraryError);
      }
      k := k + 1;
    }
    assert items[k..] == [];
    PrependEmpty(answer, Ok([]));
    return Ok(answer);
  }

  /** The SOA record data from the seven unpacked fields, in the order mname,
      rname, serial, refresh, retry, expire, minimum. */
  function SoaOf(f: seq<Value>): Rdata
    requires |f| == 7
  {
    SoaRdata(f[0], f[1], f[2], f[3], f[4], f[5], f[6])
  }

  /** The SOA branch: unpack the stored 7-tuple positionally into one record. */
  function SoaAnswer(accepts: Builder, owner: string, data: Value): (r: Result<seq<RRset>, Fault>)
    ensures r.Ok? <==> Unpack(data, 7).Ok? && accepts(SoaOf(Unpack(data, 7).value))
    ensures r.Ok? ==> r.value == [RRset(owner, IN, SOA, SoaOf(Iterate(data).value))]
    ensures r.Err? ==> r.error == (if data.Int? then TypeError else if |Iterate(data).value| != 7 then ValueError else LibraryError)
  {
    match Unpack(data, 7)
    case Err(fault) => Err(fault)
    case Ok(f) =>
      var rdata := SoaOf(f);
      if accepts(rdata) then Ok([RRset(owner, IN, SOA, rdata)]) else Err(LibraryError)
  }

  /** Any other type: the library parses the stored value as that type's text. */
  function TextAnswer(accepts: Builder, owner: string, rtype: RType, data: Value): (r: Result<seq<RRset>, Fault>)
    ensures r.Ok? <==> accepts(TextRdata(rtype, data))
    ensures r.Ok? ==> r.value == [RRset(owner, IN, rtype, TextRdata(rtype, data))]
    ensures r.Err? ==> r.error == LibraryError
  {
    var rdata := TextRdata(rtype, data);
    if accepts(rdata) then Ok([RRset(owner, IN, rtype, rdata)]) else Err(LibraryError)
  }

  /** The answer section the handler builds for a question. A miss (unknown
      name, or known name without the type) gives an empty answer; every
      record of an answer is owned by the question's name, in class IN, of
      the question's type; a hit on any type but MX gives exactly one RRset. */
  function Resolve(table: Table, accepts: Builder, q: Question): (r: Result<seq<RRset>, Fault>)
    ensures Lookup(table, q.name, q.qtype).None? ==> r == Ok([])
    ensures r.Ok? ==> forall k :: 0 <= k < |r.value| ==>
              r.value[k].owner == q.name && r.value[k].rclass == IN && r.value[k].rtype == q.qtype
    ensures r.Ok? && q.qtype != MX && Lookup(table, q.name, q.qtype).Some? ==> |r.value| == 1
  {
    match Lookup(table, q.name, q.qtype)
    case None => Ok([])
    case Some(data) =>
      if q.qtype == MX then MxAnswer(accepts, q.name, data)
      else if q.qtype == SOA then SoaAnswer(accepts, q.name, data)
      else TextAnswer(accepts, q.name, q.qtype, data)
  }

  /** An answer is non-empty only when the question's name is a key of the
      table and its type a key of that entry. */
  lemma AnswerOnlyOnExactMatch(table: Table, accepts: Builder, q: Question)
    requires Resolve(table, accepts, q).Ok? && |Resolve(table, accepts, q).value| > 0
    ensures q.name in table && q.qtype in table[q.name]
  {
  }

  /** An MX hit succeeds exactly when the stored value iterates and every item
      unpacks into a pair the library accepts; then the answer holds one RRset
      per pair, in the stored order, with that pair's preference and target. */
  lemma ResolveMx(table: Table, accepts: Builder, q: Question)
    requires q.qtype == MX && q.name in table && MX in table[q.name]
    ensures var data := table[q.name][MX];
            Resolve(table, accepts, q).Ok? <==>
              !data.Int? && forall k :: 0 <= k < |Iterate(data).value| ==> MxItemFault(accepts, Iterate(data).value[k]).None?
    ensures var data := table[q.name][MX];
            var r := Resolve(table, accepts, q);
            r.Ok? ==> |r.value| == |Iterate(data).value|
    ensures var data := table[q.name][MX];
            var r := Resolve(table, accepts, q);
            r.Ok? ==> forall k :: 0 <= k < |r.value| ==>
                        var pair := Unpack(Iterate(data).value[k], 2);
                        pair.Ok? && r.value[k].rdata == MxRdata(pair.value[0], pair.value[1])
  {
  }

  /** An SOA hit succeeds exactly when the stored value unpacks into seven
      fields the library accepts; then the answer is one record whose fields
      are the stored ones in positional order. */
  lemma ResolveSoa(table: Table, accepts: Builder, q: Question)
    requires q.qtype == SOA && q.name in table && SOA in table[q.name]
    ensures var fields := Unpack(table[q.name][SOA], 7);
            Resolve(table, accepts, q).Ok? <==> fields.Ok? && accepts(SoaOf(fields.value))
    ensures var fields := Unpack(table[q.name][SOA], 7);
            var r := Resolve(table, accepts, q);
            r.Ok? ==> fields.Ok? && r.value == [RRset(q.name, IN, SOA, SoaOf(fields.value))]
  {
  }

  /** A hit on any other type succeeds exactly when the library parses the
      stored value as that type; then the answer is that one record. */
  lemma ResolveOther(table: Table, accepts: Builder, q: Question)
    requires q.qtype != MX && q.qtype != SOA && q.name in table && q.qtype in table[q.name]
    ensures var rdata := TextRdata(q.qtype, table[q.name][q.qtype]);
            var r := Resolve(table, accepts, q);
            && (r.Ok? <==> accepts(rdata))
            && (r.Ok? ==> r.value == [RRset(q.name, IN, q.qtype, rdata)])
  {
  }

  /** When every stored item is a pair, the MX loop can only fail inside the
      library: Python's unpacking never raises. */
  lemma {:induction false} PairsFailOnlyInLibrary(accepts: Builder, owner: string, items: seq<Value>)
    requires forall item :: item in items ==> item.Items? && |item.elems| == 2
    ensures MxRecords(accepts, owner, items).Err? ==> MxRecords(accepts, owner, items).error == LibraryError
  {
    if |items| > 0 {
      assert items[0] in items;
      if MxItemFault(accepts, items[0]).None? {
        forall item | item in items[1..]
          ensures item.Items? && |item.elems| == 2
        {
          assert item in items;
        }
        PairsFailOnlyInLibrary(accepts, owner, items[1..]);
      }
    }
  }

  /** On the shipped table no query fails in Python itself: every MX list is
      made of pairs and every SOA value has seven fields, so the only
      exception left is the library refusing to build a record. */
  lemma ShippedFaultsAreLibraryFaults(accepts: Builder, q: Question)
    ensures Resolve(Shipped(), accepts, q).Err? ==> Resolve(Shipped(), accepts, q).error == LibraryError
  {
    var table := Shipped();
    ShippedShapes();
    if q.name in table && q.qtype in table[q.name] {
      var data := table[q.name][q.qtype];
      if q.qtype == MX {
        assert WellShapedMx(data);
        PairsFailOnlyInLibrary(accepts, q.name, data.elems);
      } else if q.qtype == SOA {
        assert WellShapedSoa(data);
      }
    }
  }
}
