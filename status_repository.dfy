/** `SupabaseStatusRepository.checkConnection`: a probe query, and the
    classification of its failure. The probe enters as the exception it
    throws, if any. */
module Status {
  import opened Results
  import opened Text

  const CONNECTED := "Connected"
  const CONNECTED_AUTH_REQUIRED := "Connected (auth required)"

  /** The failure reads as an auth problem: the message mentions "jwt",
      "unauthorized" or "permission", in any case. */
  predicate AuthLikely(msg: string) {
    ContainsIgnoreCase(msg, "jwt") || ContainsIgnoreCase(msg, "unauthorized") ||
    ContainsIgnoreCase(msg, "permission")
  }

  /** `checkConnection`: reachable unless the probe failed for a reason
      other than auth; a message that is missing counts as empty. */
  function CheckConnection(probe: Option<Exception>): (r: Result<string>)
    ensures probe.None? ==> r == Success(CONNECTED)
    ensures probe.Some? ==> (r.Success? <==> AuthLikely(OrEmpty(probe.value.message)))
    ensures probe.Some? && r.Success? ==> r.data == CONNECTED_AUTH_REQUIRED
    ensures probe.Some? && !r.Success? ==> r == Error(probe.value)
  {
    match probe
    case None => Success(CONNECTED)
    case Some(e) =>
      var msg := OrEmpty(e.message);
      if AuthLikely(msg) then Success(CONNECTED_AUTH_REQUIRED) else Error(e)
  }

  /** A failure without a message is an error. */
  lemma NullMessageIsError(e: Exception)
    requires e.message.None?
    ensures CheckConnection(Some(e)) == Error(e)
  {
    EmptyContainsNothing("jwt");
    EmptyContainsNothing("unauthorized");
    EmptyContainsNothing("permission");
  }

  /** A keyword anywhere in the message marks it as an auth problem. */
  lemma KeywordAnywhere(before: string, keyword: string, after: string)
    requires keyword in ["jwt", "unauthorized", "permission"]
    ensures AuthLikely(before + keyword + after)
  {
    var msg := before + keyword + after;
    assert forall j :: 0 <= j < |keyword| ==> msg[|before| + j] == keyword[j];
    assert OccursAt(msg, keyword, |before|);
  }

  /** Only letter case is ignored: messages that differ in case alone are
      classified alike. */
  lemma CaseDoesNotMatter(s: string, t: string)
    requires |s| == |t| && forall i :: 0 <= i < |s| ==> SameIgnoringCase(s[i], t[i])
    ensures AuthLikely(s) <==> AuthLikely(t)
  {
    SameOccurrences(s, t, "jwt");
    SameOccurrences(s, t, "unauthorized");
    SameOccurrences(s, t, "permission");
  }

  lemma SameOccurrences(s: string, t: string, needle: string)
    requires |s| == |t| && forall i :: 0 <= i < |s| ==> SameIgnoringCase(s[i], t[i])
    ensures ContainsIgnoreCase(s, needle) <==> ContainsIgnoreCase(t, needle)
  {
    forall at: nat | at <= |s| ensures OccursAt(s, needle, at) <==> OccursAt(t, needle, at) {
    }
  }

  /** Examples: an expired token and a denied permission are auth problems. */
  lemma AuthExamples()
    ensures CheckConnection(Some(Exception(Some("JWT expired")))) == Success(CONNECTED_AUTH_REQUIRED)
    ensures CheckConnection(Some(Exception(Some("Permission denied")))) == Success(CONNECTED_AUTH_REQUIRED)
  {
    assert OccursAt("JWT expired", "jwt", 0);
    assert OccursAt("Permission denied", "permission", 0);
  }
}
