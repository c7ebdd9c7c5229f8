/** The two legislation queries, built by plain concatenation: the member uri goes in unencoded. */
module Queries {
  import opened Results

  const MembersEndpoint := "https://api.oireachtas.ie/v1/members"
  const LegislationEndpoint := "https://api.oireachtas.ie/v1/legislation"

  /** Every bill status the service knows, so that no bill is filtered out upstream. */
  const StatusFilter := "?bill_status=Current,Withdrawn,Enacted,Rejected,Defeated,Lapsed"
  const MemberParam := "&member_id="
  const LangParam := "&lang=en"

  /** The bills sponsored by the member with this uri. */
  function SponsorQuery(memberUri: string): (q: string)
    ensures var head := LegislationEndpoint + StatusFilter + MemberParam;
            && |q| == |head| + |memberUri| + |LangParam|
            && q[..|head|] == head
            && q[|head|..|head| + |memberUri|] == memberUri
            && q[|q| - |LangParam|..] == LangParam
  {
    var head := LegislationEndpoint + StatusFilter + MemberParam;
    assert (head + memberUri + LangParam)[..|head|] == head;
    head + memberUri + LangParam
  }

  /** All bills, unscoped. */
  const UnscopedQuery := LegislationEndpoint + StatusFilter + LangParam

  /** Reads back the member uri a sponsor query was built around; None for any other string. */
  function MemberIdOf(query: string): (r: Option<string>)
    ensures r.Some? ==> query == SponsorQuery(r.value)
  {
    var head := LegislationEndpoint + StatusFilter + MemberParam;
    if |head| + |LangParam| <= |query| && query[..|head|] == head && query[|query| - |LangParam|..] == LangParam
    then
      var memberUri := query[|head|..|query| - |LangParam|];
      assert query == head + memberUri + LangParam;
      Some(memberUri)
    else None
  }

  /** Any member uri, whatever characters it holds, is read back unchanged. */
  lemma MemberIdRoundTrip(memberUri: string)
    ensures MemberIdOf(SponsorQuery(memberUri)) == Some(memberUri)
  {
    var head := LegislationEndpoint + StatusFilter + MemberParam;
    var q := SponsorQuery(memberUri);
    assert q == head + memberUri + LangParam;
    assert q[..|head|] == head;
    assert q[|q| - |LangParam|..] == LangParam;
    assert q[|head|..|q| - |LangParam|] == memberUri;
  }

  /** Distinct members give distinct queries, and the unscoped query names no member. */
  lemma QueriesDistinguishMembers(u: string, v: string)
    ensures SponsorQuery(u) == SponsorQuery(v) <==> u == v
    ensures MemberIdOf(UnscopedQuery) == None
    ensures UnscopedQuery != SponsorQuery(u)
  {
    MemberIdRoundTrip(u);
    MemberIdRoundTrip(v);
  }
}
