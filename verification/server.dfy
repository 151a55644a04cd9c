/** The query handler as a pure step: from the request's question section and
    the response's flags word to the response it sends, if it sends one. */
module Server {
  import opened Results
  import opened PyValues
  import opened HeaderFlags
  import opened Zone
  import opened Resolver

  /** The part of a decoded request the handler reads: its question section. */
  datatype Request = Request(question: seq<Question>)

  /** The response the handler sends: its flags word and its answer section. */
  datatype Response = Response(flags: bv16, answer: seq<RRset>)

  /** Handles one query. `flags` is the response's flags word as the library's
      response constructor produced it. No response is sent when the request
      has no question or building the answer raises; otherwise the answer is
      the resolved one and the AA bit is set on top of `flags`. */
  function HandleQuery(table: Table, accepts: Builder, request: Request, flags: bv16): (r: Option<Response>)
    ensures r.Some? <==> |request.question| > 0 && Resolve(table, accepts, request.question[0]).Ok?
    ensures r.Some? ==> r.value.answer == Resolve(table, accepts, request.question[0]).value
    ensures r.Some? ==> r.value.flags & AA == AA && r.value.flags & !AA == flags & !AA
  {
    if |request.question| == 0 then None
    else match Resolve(table, accepts, request.question[0])
      case Err(_) => None
      case Ok(answer) => Some(Response(SetAuthoritative(flags), answer))
  }

  /** Only the first question is consulted: requests that agree on it get the
      same response. */
  lemma OnlyFirstQuestion(table: Table, accepts: Builder, qs: seq<Question>, qs': seq<Question>, flags: bv16)
    requires |qs| > 0 && |qs'| > 0 && qs[0] == qs'[0]
    ensures HandleQuery(table, accepts, Request(qs), flags) == HandleQuery(table, accepts, Request(qs'), flags)
  {
  }

  /** A miss still gets a response: an empty answer, with AA set and every
      other header field as the response constructor left it. */
  lemma MissAnswersEmptyAndAuthoritative(table: Table, accepts: Builder, q: Question, rest: seq<Question>, flags: bv16)
    requires !(q.name in table && q.qtype in table[q.name])
    ensures var r := HandleQuery(table, accepts, Request([q] + rest), flags);
            r.Some? && r.value.answer == [] && Decode(r.value.flags) == Decode(flags).(aa := true)
  {
    assert ([q] + rest)[0] == q;
    assert Resolve(table, accepts, q) == Ok([]);
    var r := HandleQuery(table, accepts, Request([q] + rest), flags);
    assert r == Some(Response(SetAuthoritative(flags), []));
  }

  /** A sent response's answer is non-empty only on an exact hit, and all its
      records are owned by the question's name, in class IN, of its type. */
  lemma SentAnswerShape(table: Table, accepts: Builder, request: Request, flags: bv16)
    requires HandleQuery(table, accepts, request, flags).Some?
    ensures var q := request.question[0];
            var answer := HandleQuery(table, accepts, request, flags).value.answer;
            && (|answer| > 0 ==> q.name in table && q.qtype in table[q.name])
            && forall k :: 0 <= k < |answer| ==> answer[k].owner == q.name && answer[k].rclass == IN && answer[k].rtype == q.qtype
  {
  }

  /** Example: the MX query for example.com. returns the one stored pair. */
  lemma ExampleMx(accepts: Builder, flags: bv16)
    requires accepts(MxRdata(Int(10), Str("mail.example.com.")))
    ensures HandleQuery(Shipped(), accepts, Request([Question("example.com.", MX)]), flags)
            == Some(Response(flags | AA, [RRset("example.com.", IN, MX, MxRdata(Int(10), Str("mail.example.com.")))]))
  {
    var items := [Items([Int(10), Str("mail.example.com.")])];
    assert Lookup(Shipped(), "example.com.", MX) == Some(Items(items));
    assert Unpack(items[0], 2) == Ok([Int(10), Str("mail.example.com.")]);
    assert MxItemFault(accepts, items[0]) == None;
    assert items[1..] == [];
    var rec := RRset("example.com.", IN, MX, MxRdata(Int(10), Str("mail.example.com.")));
    assert MxRecords(accepts, "example.com.", items[1..]) == Ok([]);
    assert [rec] + [] == [rec];
    assert MxRecords(accepts, "example.com.", items) == Ok([rec]);
  }

  /** Example: the SOA query for example.com. unpacks the stored 7-tuple in order. */
  lemma ExampleSoa(accepts: Builder, flags: bv16)
    requires accepts(SoaRdata(Str("ns1.example.com."), Str("admin.example.com."),
                              Int(2023081401), Int(3600), Int(1800), Int(604800), Int(86400)))
    ensures HandleQuery(Shipped(), accepts, Request([Question("example.com.", SOA)]), flags)
            == Some(Response(flags | AA, [RRset("example.com.", IN, SOA,
                 SoaRdata(Str("ns1.example.com."), Str("admin.example.com."),
                          Int(2023081401), Int(3600), Int(1800), Int(604800), Int(86400)))]))
  {
  }

  /** Example: the A query for example.com. gives one record parsed from the stored address. */
  lemma ExampleA(accepts: Builder, flags: bv16)
    requires accepts(TextRdata(A, Str("192.168.1.101")))
    ensures HandleQuery(Shipped(), accepts, Request([Question("example.com.", A)]), flags)
            == Some(Response(flags | AA, [RRset("example.com.", IN, A, TextRdata(A, Str("192.168.1.101")))]))
  {
  }

  /** Example: an unknown name, a differently-cased name and a known name
      without the type all get an empty authoritative answer. */
  lemma ExampleMisses(accepts: Builder, flags: bv16)
    ensures HandleQuery(Shipped(), accepts, Request([Question("unknown.example.", A)]), flags)
            == Some(Response(flags | AA, []))
    ensures HandleQuery(Shipped(), accepts, Request([Question("EXAMPLE.COM.", A)]), flags)
            == Some(Response(flags | AA, []))
    ensures HandleQuery(Shipped(), accepts, Request([Question("safebank.com.", MX)]), flags)
            == Some(Response(flags | AA, []))
  {
  }

  /** Example: when the library cannot parse the stored TXT value, the query
      gets no response at all. */
  lemma ExampleUnparsedTxt(accepts: Builder, flags: bv16)
    requires !accepts(TextRdata(TXT, Items([Str("This is a TXT record")])))
    ensures HandleQuery(Shipped(), accepts, Request([Question("example.com.", TXT)]), flags) == None
  {
  }
}
