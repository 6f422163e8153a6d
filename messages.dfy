/** The text of the tap's API error exceptions: "<status> <Client|Server> Error: <reason> for path: <path>". */
module ErrorMessages {
  import opened Wrappers
  import opened Text
  import opened Http

  const Separator: string := " for path: "

  /** "Client" for a 4xx status, "Server" for every other one. */
  function ErrorKind(status: nat): (kind: string)
    ensures kind == "Client" <==> IsClientStatus(status)
    ensures kind == "Client" || kind == "Server"
  {
    if IsClientStatus(status) then "Client" else "Server"
  }

  /** The message an error raised for `resp` carries; `streamPath` is the stream's configured path. */
  function ErrorMessage(resp: HttpResponse, streamPath: string): string {
    MessageText(resp.status, resp.reason, ReportedPath(resp.url, streamPath))
  }

  /** An error message opens with the response's status and closes with the path it reports. */
  lemma ErrorMessageShape(resp: HttpResponse, streamPath: string)
    ensures var m := ErrorMessage(resp, streamPath);
            var path := ReportedPath(resp.url, streamPath);
            NatToString(resp.status) <= m && |path| <= |m| && m[|m| - |path|..] == path
  {
  }

  /** The message text: it opens with the status digits and closes with the path. */
  function MessageText(status: nat, reason: string, path: string): (m: string)
    ensures NatToString(status) <= m
    ensures |path| <= |m| && m[|m| - |path|..] == path
  {
    NatToString(status) + " " + ErrorKind(status) + " Error: " + reason + Separator + path
  }

  /** The four parts of an error message, as read back from its text. */
  datatype ParsedMessage = ParsedMessage(status: nat, kind: string, reason: string, path: string)

  /** Reads an error message back: status digits up to the first space, then the rest. */
  function ParseErrorMessage(m: string): Option<ParsedMessage> {
    var sp := IndexOfChar(m, ' ');
    if sp == 0 || sp == |m| || !AllDigits(m[..sp]) then None
    else
      match ParseBody(m[sp + 1..])
      case None => None
      case Some(parts) => Some(ParsedMessage(DigitsValue(m[..sp]), parts.0, parts.1, parts.2))
  }

  /** Reads "<kind> Error: <reason> for path: <path>", the reason ending at the first separator. */
  function ParseBody(rest: string): Option<(string, string, string)> {
    if |rest| < 14 || (rest[..6] != "Client" && rest[..6] != "Server") || rest[6..14] != " Error: " then None
    else
      var tail := rest[14..];
      match Find(tail, Separator)
      case None => None
      case Some(k) => Some((rest[..6], tail[..k], tail[k + |Separator|..]))
  }

  /** A reason phrase without ':' cannot hide the separator, so the first separator follows it. */
  lemma SeparatorFollowsReason(reason: string, path: string)
    requires ':' !in reason
    ensures Find(reason + Separator + path, Separator) == Some(|reason|)
  {
    var s := reason + Separator + path;
    assert s[|reason|..|reason| + |Separator|] == Separator;
    assert OccursAt(s, Separator, |reason|);
    forall i: nat | i < |reason|
      ensures !OccursAt(s, Separator, i)
    {
      if i + |Separator| <= |s| {
        assert s[i + 9] != ':' by {
          if i + 9 < |reason| {
            assert s[i + 9] == reason[i + 9];
          } else {
            assert s[i + 9] == Separator[i + 9 - |reason|];
          }
        }
        assert s[i..i + |Separator|][9] == s[i + 9];
      }
    }
  }

  lemma ParseBodyOfParts(kind: string, reason: string, path: string)
    requires kind == "Client" || kind == "Server"
    requires ':' !in reason
    ensures ParseBody(kind + " Error: " + reason + Separator + path) == Some((kind, reason, path))
  {
    var tail := reason + Separator + path;
    var rest := kind + " Error: " + reason + Separator + path;
    assert rest == kind + " Error: " + tail;
    assert rest[..6] == kind;
    assert rest[6..14] == " Error: ";
    assert rest[14..] == tail;
    SeparatorFollowsReason(reason, path);
    assert tail[..|reason|] == reason;
    assert tail[|reason| + |Separator|..] == path;
  }

  lemma ParseOfParts(digits: string, rest: string)
    requires |digits| > 0 && AllDigits(digits)
    ensures ParseErrorMessage(digits + " " + rest)
         == match ParseBody(rest)
            case None => None
            case Some(parts) => Some(ParsedMessage(DigitsValue(digits), parts.0, parts.1, parts.2))
  {
    var m := digits + " " + rest;
    assert m == digits + (" " + rest);
    assert ' ' !in digits;
    IndexOfCharAppend(digits, " " + rest, ' ');
    assert m[..|digits|] == digits;
    assert m[|digits| + 1..] == rest;
  }

  /**
   * The message determines the status, its Client/Server kind, the reason and the
   * reported path: reading it back gives them all.
   */
  lemma ErrorMessageRoundTrip(resp: HttpResponse, streamPath: string)
    requires ':' !in resp.reason
    ensures ParseErrorMessage(ErrorMessage(resp, streamPath))
         == Some(ParsedMessage(resp.status, ErrorKind(resp.status), resp.reason, ReportedPath(resp.url, streamPath)))
  {
    MessageTextRoundTrip(resp.status, resp.reason, ReportedPath(resp.url, streamPath));
  }

  lemma MessageTextRoundTrip(status: nat, reason: string, path: string)
    requires ':' !in reason
    ensures ParseErrorMessage(MessageText(status, reason, path))
         == Some(ParsedMessage(status, ErrorKind(status), reason, path))
  {
    var rest := ErrorKind(status) + " Error: " + reason + Separator + path;
    assert MessageText(status, reason, path) == NatToString(status) + " " + rest;
    ParseOfParts(NatToString(status), rest);
    ParseBodyOfParts(ErrorKind(status), reason, path);
    DigitsValueOfNatToString(status);
  }
}
