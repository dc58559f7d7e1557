/** NetworkException: the status-text table and createByCode's message format. */
module NetworkException {
  import opened Wrappers
  import opened PhpStrings
  import opened Php
  import opened Failures
  import opened Sequences

  const Conflict: int := 409

  /** NetworkException::$statusCodes. */
  const StatusCodes: map<int, string> := map[
    400 := "Bad Request",
    401 := "Unauthorized",
    402 := "Payment Required",
    403 := "Forbidden",
    404 := "Not Found",
    405 := "Method Not Allowed",
    406 := "Not Acceptable",
    407 := "Proxy Authentication Required",
    408 := "Request Timeout",
    409 := "Conflict",
    410 := "Gone",
    411 := "Length Required",
    412 := "Precondition Failed",
    413 := "Payload Too Large",
    414 := "Request-URI Too Long",
    415 := "Unsupported Media Type",
    416 := "Requested Range Not Satisfiable",
    417 := "Expectation Failed",
    418 := "I'm a teapot",
    421 := "Misdirected Request",
    422 := "Unprocessable Entity",
    423 := "Locked",
    424 := "Failed Dependency",
    426 := "Upgrade Required",
    428 := "Precondition Required",
    429 := "Too Many Requests",
    431 := "Request Header Fields Too Large",
    444 := "Connection Closed Without Response",
    451 := "Unavailable For Legal Reasons",
    499 := "Client Closed Request",
    500 := "Internal Server Error",
    501 := "Not Implemented",
    502 := "Bad Gateway",
    503 := "Service Unavailable",
    504 := "Gateway Timeout",
    505 := "HTTP Version Not Supported",
    506 := "Variant Also Negotiates",
    507 := "Insufficient Storage",
    508 := "Loop Detected",
    510 := "Not Extended",
    511 := "Network Authentication Required",
    599 := "Network Connect Timeout Error"
  ]

  /**
   * `static::$statusCodes[$statusCode]`: a code outside the table reads as null (PHP only
   * warns), which `%s` prints as ''.
   */
  function StatusText(code: int): (t: string)
    ensures code in StatusCodes ==> t == StatusCodes[code]
    ensures code !in StatusCodes ==> t == ""
  {
    if code in StatusCodes then StatusCodes[code] else ""
  }

  /** The `%s` after the text: '- ' and the message when it is filled, otherwise the message as given ('' for null). */
  function Detail(message: Option<string>): (d: string)
    ensures message.None? ==> d == ""
    ensures message.Some? && IsBlankString(message.value) ==> d == message.value
    ensures message.Some? && !IsBlankString(message.value) ==> d == "- " + message.value
  {
    match message
    case None => ""
    case Some(m) => if IsBlankString(m) then m else "- " + m
  }

  /** createByCode($statusCode, $message): the status is also the exception code. */
  function CreateByCode(code: int, message: Option<string>): (f: Failure)
    ensures f.NetworkException? && f.status == code
  {
    NetworkException(code, message)
  }

  /** The message createByCode formats: sprintf('%d: %s %s', $statusCode, $text, $message). */
  function MessageOf(f: Failure): string
    requires f.NetworkException?
  {
    IntToString(f.status) + ": " + StatusText(f.status) + " " + Detail(f.detail)
  }

  // ---------------------------------------------------------------- lemmas

  /** Every code of the table is a 4xx or 5xx status, and 409 is 'Conflict'. */
  lemma TableCodesAreErrors()
    ensures forall c | c in StatusCodes :: 400 <= c < 600
    ensures Conflict == 409 && StatusCodes[Conflict] == "Conflict"
  {
  }

  /** The decimal form of a natural number has no ':' in it. */
  lemma {:induction false} NoColonInDigits(n: nat)
    ensures forall i | 0 <= i < |NatToString(n)| :: NatToString(n)[i] != ':'
  {
    NatToStringRoundTrip(n);
  }

  /**
   * The message opens with the code in decimal and ': ', and no colon comes before, so the
   * code reads back from the text before the first colon.
   */
  lemma MessageStartsWithCode(code: nat, message: Option<string>)
    ensures var t := MessageOf(CreateByCode(code, message));
      var d := NatToString(code);
      |d| + 2 <= |t| && t[..|d|] == d && t[|d|] == ':' && t[|d| + 1] == ' '
      && (forall i | 0 <= i < |d| :: t[i] != ':')
  {
    CodeThenColon(code, message);
    NoColonBeforeColon(code, message);
  }

  lemma CodeThenColon(code: nat, message: Option<string>)
    ensures var t := MessageOf(CreateByCode(code, message));
      var d := NatToString(code);
      |d| + 2 <= |t| && t[..|d|] == d && t[|d|] == ':' && t[|d| + 1] == ' '
  {
    var d := NatToString(code);
    var rest := StatusText(code) + " " + Detail(message);
    Regroup(d, StatusText(code), Detail(message));
    CodePrefix(d, rest);
  }

  lemma NoColonBeforeColon(code: nat, message: Option<string>)
    ensures var t := MessageOf(CreateByCode(code, message));
      var d := NatToString(code);
      |d| <= |t| && (forall i | 0 <= i < |d| :: t[i] != ':')
  {
    var d := NatToString(code);
    var rest := StatusText(code) + " " + Detail(message);
    Regroup(d, StatusText(code), Detail(message));
    CodePrefix(d, rest);
    NoColonInDigits(code);
  }

  /** The code is the decimal number before the first colon of the message. */
  lemma CodeReadsBack(code: nat, message: Option<string>)
    ensures var t := MessageOf(CreateByCode(code, message));
      var n := |NatToString(code)|;
      n <= |t| && AllDigits(t[..n]) && DigitsValue(t[..n]) == code
  {
    MessageStartsWithCode(code, message);
    NatToStringRoundTrip(code);
  }

  lemma CodePrefix(d: string, rest: string)
    ensures var t := d + ": " + rest;
      |d| + 2 <= |t| && t[..|d|] == d && t[|d|] == ':' && t[|d| + 1] == ' '
      && forall i | 0 <= i < |d| :: t[i] == d[i]
  {
  }

  /** Two different status codes never produce the same message. */
  lemma MessagesDistinguishCodes(c1: nat, c2: nat, m1: Option<string>, m2: Option<string>)
    requires MessageOf(CreateByCode(c1, m1)) == MessageOf(CreateByCode(c2, m2))
    ensures c1 == c2
  {
    MessageStartsWithCode(c1, m1);
    MessageStartsWithCode(c2, m2);
    var t := MessageOf(CreateByCode(c1, m1));
    var d1, d2 := NatToString(c1), NatToString(c2);
    ColonEndsPrefix(t, |d1|, |d2|);
    NatToStringInjective(c1, c2);
  }

  /** Two colon-free prefixes of a text that are each followed by ':' have the same length. */
  lemma ColonEndsPrefix(t: string, n1: nat, n2: nat)
    requires n1 < |t| && t[n1] == ':' && forall i | 0 <= i < n1 :: t[i] != ':'
    requires n2 < |t| && t[n2] == ':' && forall i | 0 <= i < n2 :: t[i] != ':'
    ensures n1 == n2
  {
  }

  /** A filled message is appended after '- '; the message ends the text. */
  lemma FilledMessageFormat(code: int, m: string)
    requires !IsBlankString(m)
    ensures MessageOf(CreateByCode(code, Some(m))) == IntToString(code) + ": " + StatusText(code) + " - " + m
  {
    DashRegroup(IntToString(code) + ": " + StatusText(code), m);
  }

  lemma Regroup(d: string, text: string, detail: string)
    ensures d + ": " + text + " " + detail == d + ": " + (text + " " + detail)
  {
    AppendAssociative(d + ": ", text, " ");
    AppendAssociative(d + ": ", text + " ", detail);
  }

  lemma DashRegroup(head: string, m: string)
    ensures head + " " + ("- " + m) == head + " - " + m
  {
    AppendAssociative(head, " ", "- " + m);
    AppendAssociative(head, " - ", m);
    assert " " + ("- " + m) == " - " + m;
  }

  /** A null or blank message is not prefixed, leaving a trailing space after the status text. */
  lemma InternalServerErrorWithoutMessage()
    ensures MessageOf(CreateByCode(500, None)) == "500: Internal Server Error "
    ensures MessageOf(CreateByCode(500, Some(""))) == "500: Internal Server Error "
  {
    FiveHundredText();
    assert IsBlankString("");
  }

  lemma FiveHundredText()
    ensures IntToString(500) + ": " + StatusText(500) + " " == "500: Internal Server Error "
  {
    ThreeDigits(500);
    Status500();
    FiveHundredSpelled(IntToString(500), StatusText(500));
  }

  lemma FiveHundredSpelled(code: string, text: string)
    requires code == "500" && text == "Internal Server Error"
    ensures code + ": " + text + " " == "500: Internal Server Error "
  {
  }

  lemma Status500()
    ensures StatusText(500) == "Internal Server Error"
  {
  }

  lemma Status401()
    ensures StatusText(401) == "Unauthorized"
  {
  }

  lemma Status403()
    ensures StatusText(403) == "Forbidden"
  {
  }
}
