# Authoritative DNS responder: the query-handling step

This project models the one piece of logic of `DNSServer.py` that is the
repository's own: the static zone table `dns_records` and the decision step of
`handle_dns_query` that, given the first question of a decoded request, looks
the question's name and type up in the table, builds the answer RRsets
(one per MX pair, one positional SOA record, or one record parsed from the
stored text), sets the Authoritative Answer bit, and either sends the response
or, when anything raises, sends nothing.

Modules (one concept each):

- `Results` (`results.dfy`): `Option` and `Result`.
- `PyValues` (`py_values.dfy`): the Python values the table stores (int, str,
  list/tuple) and the Python semantics the handler applies to them: iteration
  in the MX `for` loop and positional unpacking, with the `TypeError` /
  `ValueError` they raise.
- `HeaderFlags` (`header_flags.dfy`): the 16-bit flags word, its field view
  in the layout of section 4.1.1 of RFC 1035, and the `|= 1 << 10` step.
- `Zone` (`zone.dfy`): record type codes, the table type, the exact-match
  lookup and the shipped table.
- `Resolver` (`resolver.dfy`): record data, RRsets, the per-type answer
  construction and `Resolve`.
- `Server` (`server.dfy`): `HandleQuery`, from the question section and the
  response's flags word to the response sent, plus end-to-end examples on
  the shipped table.

The DNS library's record constructors (`MX(...)`, `SOA(...)`) and text parser
(`dns.rdata.from_text`) are not visible here. They are a parameter
`accepts: Rdata -> bool`: a record is built when `accepts` holds of it, and the
library raises (`LibraryError`) otherwise. An MX or SOA record holds the stored
values passed to its constructor. Parsed data is represented by the type and
the stored value handed to the parser. Names are represented by their text
form (`question.name.to_text()`), which is also what the table is keyed on.

## Model

| member | source | states |
|---|---|---|
| PyValues.Iterate | DNSServer.py:78 | Iterating a stored value fails with TypeError exactly when it is an int; a list/tuple yields its elements and a str yields its characters one by one, in order |
| PyValues.Unpack | DNSServer.py:82 | Unpacking into n targets succeeds exactly when the value is iterable and yields exactly n values, which are then the iterated values; a non-iterable raises TypeError and a wrong count ValueError |
| HeaderFlags.SetAuthoritative | DNSServer.py:92 | After `flags \|= 1 << 10` the AA field reads 1 and QR, Opcode, TC, RD, RA, Z and RCODE read as before; every bit other than bit 10 is unchanged |
| HeaderFlags.SetAuthoritativeIdempotent | DNSServer.py:92 | Setting the AA bit twice gives the same word as setting it once |
| HeaderFlags.SetAuthoritativeChangesOnlyClearWords | DNSServer.py:92 | The flags word changes exactly when its AA field was 0 |
| Zone.Lookup | DNSServer.py:74-75 | A stored value is found exactly when the name is a key of the table and the type a key of that entry (exact, case-sensitive string match), and it is that entry's value |
| Zone.ShippedOwnersAbsolute | DNSServer.py:13-47 | Every owner name in the shipped table is non-empty and ends in '.' |
| Zone.ShippedShapes | DNSServer.py:13-47 | Every shipped MX value is a non-empty list of (16-bit int, str) pairs and every shipped SOA value is a 7-tuple of two strs and five 32-bit unsigned ints |
| Resolver.MxRecords | DNSServer.py:78-80 | The MX loop succeeds exactly when every item unpacks into a pair the library accepts; it then yields exactly one RRset per item, the k-th built from the k-th item's preference and target |
| Resolver.BuildMxAnswer | DNSServer.py:77-80 | The imperative loop (unpack, append RRset, add record, stop at the first exception) produces the same outcome as the recursive definition of the MX branch |
| Resolver.MxAnswer | DNSServer.py:77-80 | The MX branch raises TypeError for a non-iterable value and otherwise succeeds iff every iterated item unpacks into a pair the library accepts; the answer then has one MX RRset per item, in order, owned by the question's name in class IN, with that item's preference and target |
| Resolver.SoaAnswer | DNSServer.py:81-84 | The SOA branch succeeds iff the stored value unpacks into seven fields the library accepts; the answer is then the one SOA record with those fields in positional order; otherwise it raises TypeError (not iterable), ValueError (wrong count) or the library's exception |
| Resolver.TextAnswer | DNSServer.py:85-87 | The branch for any other type succeeds iff the library parses the stored value as that type; the answer is then that single record of that type, owned by the question's name in class IN; otherwise the library's exception |
| Resolver.Resolve | DNSServer.py:74-90 | A miss on name or type gives an empty answer; every answer RRset is owned by the question's name, has class IN and the question's type; a hit on any type but MX gives exactly one RRset |
| Resolver.AnswerOnlyOnExactMatch | DNSServer.py:74-90 | A non-empty answer implies the question's name is a table key and its type a key of that entry |
| Resolver.ResolveMx | DNSServer.py:77-80 | An MX hit succeeds iff the stored value iterates and every item is an accepted pair; then the answer has one RRset per stored pair, in stored order, carrying that pair's preference and target |
| Resolver.ResolveSoa | DNSServer.py:81-84 | An SOA hit succeeds iff the stored value unpacks into seven fields the library accepts; then the answer is one record whose mname, rname, serial, refresh, retry, expire, minimum are the stored fields in that order |
| Resolver.ResolveOther | DNSServer.py:85-87 | A hit on any other type succeeds iff the library parses the stored value as that type; the answer is then that single record, of the question's type |
| Resolver.PairsFailOnlyInLibrary | DNSServer.py:78-80 | When every stored MX item is a two-element list or tuple, the MX loop can fail only because the library rejects a record |
| Resolver.ShippedFaultsAreLibraryFaults | DNSServer.py:13-47 | On the shipped table no query raises in Python's iteration or unpacking; the only possible exception comes from the library |
| Server.HandleQuery | DNSServer.py:63-97 | The handler reaches `to_wire` with a response iff the request has a question and building the answer for the first one does not raise; it then carries that answer, and its flags word has AA set with every other bit as the response constructor produced it |
| Server.OnlyFirstQuestion | DNSServer.py:70 | Two requests with the same first question get the same response, whatever their other questions |
| Server.MissAnswersEmptyAndAuthoritative | DNSServer.py:88-92 | A miss is still answered: the response is sent with an empty answer, AA set and every other header field unchanged |
| Server.SentAnswerShape | DNSServer.py:79-86 | In every sent response a non-empty answer means an exact table hit, and every answer record is owned by the question's name, in class IN, of the question's type |
| Server.ExampleMx | DNSServer.py:17 | The MX query for example.com. returns exactly one RRset with preference 10 and target mail.example.com. |
| Server.ExampleSoa | DNSServer.py:21-29 | The SOA query for example.com. returns one record with the seven stored fields in positional order |
| Server.ExampleA | DNSServer.py:15 | The A query for example.com. returns one A record parsed from 192.168.1.101 |
| Server.ExampleMisses | DNSServer.py:88-90 | An unknown name, a differently-cased name (EXAMPLE.COM.) and a known name lacking the type all get an empty authoritative answer |
| Server.ExampleUnparsedTxt | DNSServer.py:96-97 | When the library cannot parse the stored TXT value, no response is sent at all |

## Left out

- The UDP socket loop, `recvfrom`/`sendto`, the thread per query and the console-driven shutdown thread (DNSServer.py:49-60, 100-118): I/O and concurrency plumbing.
- Decoding the request, building the response skeleton and encoding it (`from_wire`, `make_response`, `to_wire`): these are DNS library calls whose code is not part of this model. The request is represented by its question section. The flags word `HandleQuery` receives is the one the library's response constructor produced, so header echo, QR and RD copying are not modelled. A request that fails to decode gets no response, like any other exception. An exception raised by `make_response`, `to_wire` or `sendto` (DNSServer.py:68, 94) also suppresses the reply; those calls are not modelled, so `HandleQuery` describes the response the handler reaches `to_wire` with.
- The handler sets no TTL on answer RRsets (DNSServer.py:79-80, 83-84, 86-87); the TTL is the library default and is not modelled.
- The DNS library's record constructors and text parser: represented by the `accepts` parameter. Which stored values they accept is not asserted; in particular whether the parser accepts the TXT values, which are stored as tuples rather than strings, is left open.
- The `print` logging of the request, the response and the exception.
- Resolver.MxRecords: when the MX loop fails, which exception it raises (that of the first failing item) is not stated; the exception only reaches the log message, which is not modelled.
- Python lists and tuples are one constructor, since the handler only iterates and unpacks them; other Python types (bool, None, dict) cannot appear in the table's values and are not modelled.
- The owner name of an answer RRset is the question's name object; it is represented by that name's text form, the same text used for the lookup.
- That handling a query never changes the table needs no lemma: the table is an immutable value that `HandleQuery` reads and does not return.
- No DNS wire codec: parsing and serialising are the library's (`from_wire`, `to_wire`). The handler hands the whole stored TXT tuple to the library parser as one record (DNSServer.py:87), and the model does the same.
