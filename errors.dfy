/** The conditions under which the API functions raise, one constructor per exception. */
module Errors {
  import opened Dates
  import opened Text

  datatype ApiError =
    | InvalidUri(status: int, uri: string)  // SystemExit raised on the HTTPError of raise_for_status
    | NotJson(uri: string)                  // ValueError: the response is not JSON
    | UnknownMember(pId: string)            // StopIteration: no member has that pId
    | BadDate(text: string)                 // ValueError from strptime on a bill's date
    | BadRange(since: Date, until: Date)    // ValueError: the window starts after it ends

  /** The text each exception carries: the fetch errors name the uri that was queried, and the
      not-found error the pId exactly as given. */
  function Message(e: ApiError): (m: string)
    requires !e.BadDate?
    requires e.BadRange? ==> ValidDate(e.since) && ValidDate(e.until)
    ensures (e.InvalidUri? || e.NotJson?) ==> Contains(m, e.uri)
    ensures e.UnknownMember? ==> Contains(m, e.pId)
  {
    match e
    case InvalidUri(_, uri) =>
      ContainsMiddle("Invalid URI ", uri, "");
      assert "Invalid URI " + uri + "" == "Invalid URI " + uri;
      "Invalid URI " + uri
    case NotJson(uri) =>
      ContainsMiddle("Response from ", uri, " is not in json format");
      "Response from " + uri + " is not in json format"
    case UnknownMember(pId) =>
      ContainsMiddle("No URI associated with the pId value provided, check that the pId (", pId, ") entered is correct.");
      "No URI associated with the pId value provided, check that the pId (" + pId + ") entered is correct."
    case BadRange(since, until) =>
      "Start Date " + FormatDate(since) + " is greater than end date " + FormatDate(until)
  }

  /** The range error names both dates of the window, in `date.isoformat` form. */
  lemma RangeErrorNamesDates(since: Date, until: Date)
    requires ValidDate(since) && ValidDate(until)
    ensures Contains(Message(BadRange(since, until)), FormatDate(since))
    ensures Contains(Message(BadRange(since, until)), FormatDate(until))
  {
    var pre, mid := "Start Date ", " is greater than end date ";
    var m := Message(BadRange(since, until));
    ContainsMiddle(pre, FormatDate(since), mid + FormatDate(until));
    assert m == pre + FormatDate(since) + (mid + FormatDate(until));
    ContainsMiddle(pre + FormatDate(since) + mid, FormatDate(until), "");
    assert m == pre + FormatDate(since) + mid + FormatDate(until) + "";
  }
}
