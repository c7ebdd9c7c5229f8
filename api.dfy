/** The two public queries: the bills a member sponsored, and the bills last updated in a window. */
module OireachtasApi {
  import opened Results
  import opened Dates
  import opened Text
  import opened Errors
  import opened Endpoint
  import opened Members
  import opened Queries
  import opened Bills

  /** `filter_bills_sponsored_by`: fetch the members, resolve the pId to its uri, and return what
      the legislation endpoint answers to the query scoped to that uri, unfiltered. */
  function BillsSponsoredBy(getMembers: string -> Response<Member>, getBills: string -> Response<Bill>,
                            pId: string): (r: Result<seq<Bill>, ApiError>)
    ensures r.Failure? ==> r.error.InvalidUri? || r.error.NotJson? || r.error.UnknownMember?
  {
    var members :- GetEndpointData(getMembers, MembersEndpoint);
    var memberUri :- ResolveMember(members, pId);
    GetEndpointData(getBills, SponsorQuery(memberUri))
  }

  /** A failed member fetch is passed on unchanged; an unknown pId fails with an error whose
      message names it; otherwise the bills are exactly the `results` of the query that carries
      the uri of the first member with that pId. */
  lemma SponsoredByContract(getMembers: string -> Response<Member>, getBills: string -> Response<Bill>,
                            pId: string)
    ensures var fetched := GetEndpointData(getMembers, MembersEndpoint);
            var r := BillsSponsoredBy(getMembers, getBills, pId);
            && (fetched.Failure? ==> r == Failure(fetched.error))
            && (fetched.Success? && FirstWithPId(fetched.value, pId).None? ==>
                  r == Failure(UnknownMember(pId)) && Contains(Message(r.error), pId))
            && (fetched.Success? && FirstWithPId(fetched.value, pId).Some? ==>
                  var uri := fetched.value[FirstWithPId(fetched.value, pId).value].uri;
                  && r == GetEndpointData(getBills, SponsorQuery(uri))
                  && (r.Success? ==> r.value == getBills(SponsorQuery(uri)).results))
  {
    var fetched := GetEndpointData(getMembers, MembersEndpoint);
    if fetched.Success? {
      match FirstWithPId(fetched.value, pId)
      case None =>
      case Some(i) =>
    }
  }

  /** `filter_bills_by_last_updated` as written: fetch every bill, then filter them. A reversed
      window is not checked for. */
  method FilterBillsByLastUpdated(getBills: string -> Response<Bill>, since: Date, until: Date)
    returns (r: Result<seq<Bill>, ApiError>)
    ensures GetEndpointData(getBills, UnscopedQuery).Failure? ==>
              r == Failure(GetEndpointData(getBills, UnscopedQuery).error)
    ensures GetEndpointData(getBills, UnscopedQuery).Success? ==>
              r == UpdatedWithin(GetEndpointData(getBills, UnscopedQuery).value, since, until)
  {
    var fetched := GetEndpointData(getBills, UnscopedQuery);
    if fetched.Failure? {
      return Failure(fetched.error);
    }
    r := KeepBillsInWindow(fetched.value, since, until);
  }

  /** The loop of `filter_bills_by_last_updated`: keep, in upstream order, each bill last updated
      in (since, until] whose billNo is not yet kept; a date strptime refuses aborts the call. */
  method KeepBillsInWindow(bills: seq<Bill>, since: Date, until: Date)
    returns (r: Result<seq<Bill>, ApiError>)
    ensures r == UpdatedWithin(bills, since, until)
  {
    ghost var dates, window := UpdateDates(bills), Window(since, until);
    var billNos: seq<string> := [];
    var billsWithinDateRange: seq<Bill> := [];
    for i := 0 to |bills|
      invariant i <= FirstBadDate(dates)
      invariant billsWithinDateRange == Kept(bills, dates, i, window)
      invariant billNos == BillNos(billsWithinDateRange)
    {
      var bill := bills[i];
      var billLastUpdated := UpdatedOn(bill);
      UpdateDatesAt(bills, i);
      if billLastUpdated.None? {
        assert FirstBadDate(dates) == i;
        return Failure(BadDate(DatePart(bill.lastUpdated)));
      }
      LoopStep(bills, dates, i, billLastUpdated.value, window);
      if Before(since, billLastUpdated.value) && AtOrBefore(billLastUpdated.value, until) {
        if bill.billNo !in billNos {
          billsWithinDateRange := billsWithinDateRange + [bill];
          billNos := billNos + [bill.billNo];
        }
      }
    }
    assert FirstBadDate(dates) == |bills|;
    return Success(billsWithinDateRange);
  }

  /** The query with the range check the tests expect: a window whose start is after its end
      fails with BadRange before anything is fetched; any other window is filtered as above. */
  method BillsUpdatedBetween(getBills: string -> Response<Bill>, since: Date, until: Date)
    returns (r: Result<seq<Bill>, ApiError>)
    ensures Before(until, since) ==> r == Failure(BadRange(since, until))
    ensures !Before(until, since) && GetEndpointData(getBills, UnscopedQuery).Failure? ==>
              r == Failure(GetEndpointData(getBills, UnscopedQuery).error)
    ensures !Before(until, since) && GetEndpointData(getBills, UnscopedQuery).Success? ==>
              r == UpdatedWithin(GetEndpointData(getBills, UnscopedQuery).value, since, until)
  {
    if Before(until, since) {
      return Failure(BadRange(since, until));
    }
    r := FilterBillsByLastUpdated(getBills, since, until);
  }
}
