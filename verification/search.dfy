/** The search page: the assistant card trigger, construction of the profile
    lookup, the blank-query reset and the "Identity Not Found" condition. */
module SearchPage {
  import opened Common
  import opened Types

  /** The two lookup modes: by display name or by uid. */
  datatype SearchMode = ByName | ByUid

  /** The assistant card is offered when the query mentions "ai", "gemini" or
      "voice" in any letter case. */
  predicate ShowAiCard(query: string) {
    var q := ToLower(query);
    Contains(q, "ai") || Contains(q, "gemini") || Contains(q, "voice")
  }

  /** The card does not depend on how the query is capitalised. */
  lemma AiCardIgnoresCase(query: string)
    ensures ShowAiCard(ToUpper(query)) == ShowAiCard(query)
  {
    LowerOfUpper(query);
  }

  /** Typing more around a query that shows the card keeps it shown. */
  lemma AiCardPersists(query: string, before: string, after: string)
    requires ShowAiCard(query)
    ensures ShowAiCard(before + query + after)
  {
    var q := ToLower(query);
    assert ToLower(before + query + after) == ToLower(before) + q + ToLower(after);
    if Contains(q, "ai") {
      ContainsExtend(q, "ai", ToLower(before), ToLower(after));
    } else if Contains(q, "gemini") {
      ContainsExtend(q, "gemini", ToLower(before), ToLower(after));
    } else {
      ContainsExtend(q, "voice", ToLower(before), ToLower(after));
    }
  }

  /** A profile lookup: a case-insensitive `ilike` on one column, excluding the
      signed-in user's uid, at most `limit` rows. */
  datatype Lookup = Lookup(column: string, pattern: string, excludedUid: string, limit: nat)

  /** The most rows a lookup returns. */
  const MaxResults: nat := 10

  /** The lookup `searchUsers` issues, none for a query that trims to empty. The
      pattern wraps the query as typed, untrimmed. */
  function SearchRequest(query: string, mode: SearchMode, myUid: string): (r: Option<Lookup>)
    ensures r.None? <==> IsBlank(query)
    ensures r.Some? ==> r.value.column == (if mode == ByUid then "uid" else "name")
    ensures r.Some? ==> r.value.pattern == "%" + query + "%" && |r.value.pattern| == |query| + 2
    ensures r.Some? ==> r.value.excludedUid == myUid && r.value.limit == MaxResults
  {
    TrimEmptyIffBlank(query);
    if Trim(query) == "" then None
    else Some(Lookup(if mode == ByUid then "uid" else "name", "%" + query + "%", myUid, MaxResults))
  }

  datatype SearchState = SearchState(query: string, mode: SearchMode, results: seq<ProfileRow>, loading: bool)

  /** One run of `searchUsers` given the lookup's reply (consulted only when a
      lookup is issued): a blank query clears the results; otherwise the rows
      returned replace them, an error or exception keeps them, and `loading` is
      false afterwards either way. */
  function RunSearch(s: SearchState, myUid: string, reply: Remote<seq<ProfileRow>>): (r: SearchState)
    ensures r.query == s.query && r.mode == s.mode
    ensures IsBlank(s.query) ==> r == s.(results := [])
    ensures !IsBlank(s.query) ==> !r.loading
    ensures !IsBlank(s.query) ==> r.results == (if reply.Ok? then reply.data else s.results)
  {
    match SearchRequest(s.query, s.mode, myUid)
    case None => s.(results := [])
    case Some(_) =>
      var busy := s.(loading := true);
      match reply
      case Ok(rows) => busy.(results := rows, loading := false)
      case Err(_) => busy.(loading := false)
  }

  /** The "Identity Not Found" notice. */
  predicate NotFoundShown(s: SearchState) {
    |s.query| > 0 && |s.results| == 0 && !s.loading && !ShowAiCard(s.query)
  }

  /** A query of only whitespace issues no lookup and clears the results; since
      the notice tests the untrimmed query, it shows "Identity Not Found" when
      nothing is loading. */
  lemma WhitespaceQueryShowsNotFound(s: SearchState, myUid: string, reply: Remote<seq<ProfileRow>>)
    requires |s.query| > 0 && IsBlank(s.query) && !s.loading
    ensures NotFoundShown(RunSearch(s, myUid, reply))
  {
    var q := ToLower(s.query);
    forall p: string | |p| > 0 && !IsWhitespace(p[0]) ensures !Contains(q, p) {
      forall i | 0 <= i <= |q| - |p| ensures !OccursAt(q, p, i) {
        assert IsWhitespace(q[i]);
        assert q[i..i + |p|][0] == q[i];
      }
    }
  }

  /** A successful lookup that finds nobody shows the notice exactly when the
      query does not call up the assistant card. */
  lemma EmptyLookupNotice(s: SearchState, myUid: string)
    requires |s.query| > 0 && !IsBlank(s.query)
    ensures NotFoundShown(RunSearch(s, myUid, Ok([]))) <==> !ShowAiCard(s.query)
  {
  }
}
