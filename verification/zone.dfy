/** The static record table the server answers from, and the exact-match
    lookup the handler performs on it. */
module Zone {
  import opened Results
  import opened PyValues

  /** A 16-bit unsigned DNS code (record type or class). */
  newtype u16 = x: int | 0 <= x < 0x1_0000

  /** A record type code, as carried in a question's QTYPE field. */
  type RType = u16

  const A: RType := 1
  const NS: RType := 2
  const CNAME: RType := 5
  const SOA: RType := 6
  const MX: RType := 15
  const TXT: RType := 16
  const AAAA: RType := 28

  /** Owner name (in text form) to record type to stored value. */
  type Table = map<string, map<RType, Value>>

  /** The handler's `qname in dns_records and qtype in dns_records[qname]`
      test followed by the double index: exact, case-sensitive matching on
      the name's text, with a miss when either key is absent. */
  function Lookup(table: Table, name: string, rtype: RType): (r: Option<Value>)
    ensures r.Some? <==> name in table && rtype in table[name]
    ensures r.Some? ==> r.value == table[name][rtype]
  {
    if name in table && rtype in table[name] then Some(table[name][rtype]) else None
  }

  /** The table the server ships with. */
  function Shipped(): Table
  {
    map[
      "example.com." := map[
        A := Str("192.168.1.101"),
        AAAA := Str("2001:0db8:85a3:0000:0000:8a2e:0370:7334"),
        MX := Items([Items([Int(10), Str("mail.example.com.")])]),
        CNAME := Str("www.example.com."),
        NS := Str("ns.example.com."),
        TXT := Items([Str("This is a TXT record")]),
        SOA := Items([Str("ns1.example.com."), Str("admin.example.com."),
                      Int(2023081401), Int(3600), Int(1800), Int(604800), Int(86400)])
      ],
      "nyu.edu." := map[
        MX := Items([Items([Int(10), Str("mxa-00256a01.gslb.pphosted.com.")])]),
        NS := Str("ns1.nyu.edu."),
        AAAA := Str("2001:0db8:85a3:0000:0000:8a2e:0373:7312"),
        A := Str("192.168.1.106"),
        TXT := Items([Str("aa11583@nyu.edu")])
      ],
      "safebank.com." := map[A := Str("192.168.1.102")],
      "legitsite.com." := map[A := Str("192.168.1.104")],
      "google.com." := map[A := Str("8.8.4.4")]
    ]
  }

  /** An MX value the handler can iterate: a non-empty list whose every item
      is a (preference, target) pair of a 16-bit int and a str. */
  predicate WellShapedMx(v: Value) {
    && v.Items?
    && |v.elems| > 0
    && forall item :: item in v.elems ==>
         && item.Items? && |item.elems| == 2
         && item.elems[0].Int? && 0 <= item.elems[0].i < 0x1_0000
         && item.elems[1].Str?
  }

  /** An SOA value the handler can unpack: a 7-tuple of two names and five
      32-bit unsigned ints. */
  predicate WellShapedSoa(v: Value) {
    && v.Items? && |v.elems| == 7
    && v.elems[0].Str? && v.elems[1].Str?
    && forall k :: 2 <= k < 7 ==> v.elems[k].Int? && 0 <= v.elems[k].i < 0x1_0000_0000
  }

  /** Every owner name of the shipped table is fully qualified (ends in '.'). */
  lemma ShippedOwnersAbsolute()
    ensures forall name :: name in Shipped() ==> |name| > 0 && name[|name| - 1] == '.'
  {
  }

  /** Every shipped MX list is non-empty and made of (preference, target) pairs,
      and every shipped SOA value is a well-formed 7-tuple. */
  lemma ShippedShapes()
    ensures forall name :: name in Shipped() && MX in Shipped()[name] ==> WellShapedMx(Shipped()[name][MX])
    ensures forall name :: name in Shipped() && SOA in Shipped()[name] ==> WellShapedSoa(Shipped()[name][SOA])
  {
  }
}
