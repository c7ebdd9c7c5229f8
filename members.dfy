/** The member search of `filter_bills_sponsored_by`: the first member record whose pId matches. */
module Members {
  import opened Results
  import opened Errors

  datatype Member = Member(pId: string, uri: string, fullName: string)

  /** Index of the first member with this pId, in upstream order. */
  function FirstWithPId(members: seq<Member>, pId: string): (r: Option<nat>)
    ensures r.Some? ==> r.value < |members| && members[r.value].pId == pId
    ensures r.Some? ==> forall j :: 0 <= j < r.value ==> members[j].pId != pId
    ensures r.None? <==> forall j :: 0 <= j < |members| ==> members[j].pId != pId
  {
    if members == [] then None
    else if members[0].pId == pId then Some(0)
    else match FirstWithPId(members[1..], pId)
      case None => None
      case Some(k) => Some(k + 1)
  }

  /** The uri of the first member with this pId, or the error that names the pId. */
  function ResolveMember(members: seq<Member>, pId: string): (r: Result<string, ApiError>)
    ensures r.Failure? <==> forall m :: m in members ==> m.pId != pId
    ensures r.Failure? ==> r.error == UnknownMember(pId)
    ensures r.Success? ==> exists i :: 0 <= i < |members| && members[i].pId == pId && r.value == members[i].uri
                                       && forall j :: 0 <= j < i ==> members[j].pId != pId
  {
    match FirstWithPId(members, pId)
    case None => Failure(UnknownMember(pId))
    case Some(i) => Success(members[i].uri)
  }
}
