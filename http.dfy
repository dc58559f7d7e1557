/**
 * The PSR-7 messages the pipeline exchanges: a request and a response with headers
 * whose names compare case-insensitively, `getHeaderLine` joining values with ", ",
 * and `withHeader` replacing every earlier value of a header.
 */
module Http {
  import opened PhpStrings

  datatype Header = Header(name: string, values: seq<string>)

  type Headers = seq<Header>

  datatype Request = Request(verb: string, uri: string, headers: Headers, body: string)

  datatype Response = Response(status: int, headers: Headers, body: string)

  /** Every value of the headers named `name`, in order. */
  function Values(hs: Headers, name: string): seq<string> {
    if hs == [] then []
    else (if EqualsIgnoreCase(hs[0].name, name) then hs[0].values else []) + Values(hs[1..], name)
  }

  function Join(vs: seq<string>, sep: string): string {
    if vs == [] then "" else if |vs| == 1 then vs[0] else vs[0] + sep + Join(vs[1..], sep)
  }

  /** getHeaderLine(): the values joined with ", ", or '' when the header is absent. */
  function HeaderLine(hs: Headers, name: string): string {
    Join(Values(hs, name), ", ")
  }

  /** hasHeader(). */
  predicate HasHeader(hs: Headers, name: string) {
    exists i | 0 <= i < |hs| :: EqualsIgnoreCase(hs[i].name, name)
  }

  /** How many header entries carry this name. */
  function Occurrences(hs: Headers, name: string): nat {
    if hs == [] then 0 else (if EqualsIgnoreCase(hs[0].name, name) then 1 else 0) + Occurrences(hs[1..], name)
  }

  function WithoutHeader(hs: Headers, name: string): (r: Headers)
    ensures Occurrences(r, name) == 0
    ensures forall n | !EqualsIgnoreCase(n, name) :: Values(r, n) == Values(hs, n)
  {
    if hs == [] then []
    else if EqualsIgnoreCase(hs[0].name, name) then WithoutHeader(hs[1..], name)
    else [hs[0]] + WithoutHeader(hs[1..], name)
  }

  /** withHeader(): drop the header under any spelling of its name, then set it to one value. */
  function WithHeader(hs: Headers, name: string, value: string): Headers {
    WithoutHeader(hs, name) + [Header(name, [value])]
  }

  function RequestWithHeader(r: Request, name: string, value: string): Request {
    r.(headers := WithHeader(r.headers, name, value))
  }

  // ---------------------------------------------------------------- lemmas

  lemma {:induction false} ValuesAppend(a: Headers, b: Headers, name: string)
    ensures Values(a + b, name) == Values(a, name) + Values(b, name)
  {
    if a == [] {
      assert a + b == b;
    } else {
      assert (a + b)[0] == a[0] && (a + b)[1..] == a[1..] + b;
      ValuesAppend(a[1..], b, name);
    }
  }

  lemma {:induction false} OccurrencesAppend(a: Headers, b: Headers, name: string)
    ensures Occurrences(a + b, name) == Occurrences(a, name) + Occurrences(b, name)
  {
    if a == [] {
      assert a + b == b;
    } else {
      assert (a + b)[0] == a[0] && (a + b)[1..] == a[1..] + b;
      OccurrencesAppend(a[1..], b, name);
    }
  }

  lemma {:induction false} ValuesEmptyWithoutOccurrences(hs: Headers, name: string)
    requires Occurrences(hs, name) == 0
    ensures Values(hs, name) == []
  {
    if hs != [] {
      ValuesEmptyWithoutOccurrences(hs[1..], name);
    }
  }

  /**
   * After withHeader, the header (under any spelling) has exactly the one new value and
   * occurs once; every other header is as it was.
   */
  lemma WithHeaderSets(hs: Headers, name: string, value: string, asked: string)
    requires EqualsIgnoreCase(name, asked)
    ensures Values(WithHeader(hs, name, value), asked) == [value]
    ensures HeaderLine(WithHeader(hs, name, value), asked) == value
    ensures Occurrences(WithHeader(hs, name, value), asked) == 1
  {
    var w := WithoutHeader(hs, name);
    ValuesAppend(w, [Header(name, [value])], asked);
    OccurrencesAppend(w, [Header(name, [value])], asked);
    OccurrencesOtherSpelling(hs, name, asked);
    ValuesEmptyWithoutOccurrences(w, asked);
    assert [Header(name, [value])][1..] == [];
  }

  lemma {:induction false} OccurrencesOtherSpelling(hs: Headers, name: string, asked: string)
    requires EqualsIgnoreCase(name, asked)
    ensures Occurrences(WithoutHeader(hs, name), asked) == 0
  {
    if hs != [] {
      OccurrencesOtherSpelling(hs[1..], name, asked);
      if !EqualsIgnoreCase(hs[0].name, name) {
        assert !EqualsIgnoreCase(hs[0].name, asked);
        assert WithoutHeader(hs, name)[1..] == WithoutHeader(hs[1..], name);
      }
    }
  }

  lemma WithHeaderKeepsOthers(hs: Headers, name: string, value: string, other: string)
    requires !EqualsIgnoreCase(name, other)
    ensures Values(WithHeader(hs, name, value), other) == Values(hs, other)
  {
    ValuesAppend(WithoutHeader(hs, name), [Header(name, [value])], other);
    assert !EqualsIgnoreCase(other, name);
    assert [Header(name, [value])][1..] == [];
  }

  /** Setting a header twice is the same as setting it once to the second value. */
  lemma WithHeaderTwice(hs: Headers, name: string, v1: string, v2: string)
    ensures WithHeader(WithHeader(hs, name, v1), name, v2) == WithHeader(hs, name, v2)
  {
    WithoutHeaderAppendMatching(WithoutHeader(hs, name), Header(name, [v1]), name);
    WithoutHeaderIdempotent(hs, name);
  }

  lemma {:induction false} WithoutHeaderAppendMatching(hs: Headers, h: Header, name: string)
    requires EqualsIgnoreCase(h.name, name)
    ensures WithoutHeader(hs + [h], name) == WithoutHeader(hs, name)
  {
    if hs == [] {
      assert [h][1..] == [];
    } else {
      assert (hs + [h])[1..] == hs[1..] + [h];
      WithoutHeaderAppendMatching(hs[1..], h, name);
    }
  }

  lemma {:induction false} WithoutHeaderIdempotent(hs: Headers, name: string)
    ensures WithoutHeader(WithoutHeader(hs, name), name) == WithoutHeader(hs, name)
  {
    if hs != [] {
      WithoutHeaderIdempotent(hs[1..], name);
    }
  }

  lemma JoinSingle(v: string, sep: string)
    ensures Join([v], sep) == v
  {
  }
}
