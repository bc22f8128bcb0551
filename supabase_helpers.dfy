/** The row-level-security helpers: recognising a permission denial, the
    user-facing message for one, shaping a query's answer into a uniform result,
    and looking up public seller profiles. */
module SupabaseHelpers {
  import opened Common

  /** An error reported by the database API. */
  datatype PgError = PgError(code: string, message: string)

  /** Insufficient privilege, a row hidden by row-level security, or a message
      naming permissions or policies in any letter case. */
  predicate IsPermissionError(error: Option<PgError>)
  {
    error.Some? &&
    (error.value.code == "42501" || error.value.code == "PGRST116" ||
     Contains(Lower(error.value.message), "permission denied") ||
     Contains(Lower(error.value.message), "row-level security") ||
     Contains(Lower(error.value.message), "policy"))
  }

  /** The narrower test the account and product pages write inline: code 42501 or a
      message containing "policy" as written. */
  predicate IsPolicyDenial(e: PgError)
  {
    e.code == "42501" || Contains(e.message, "policy")
  }

  /** Whatever the pages' inline test treats as a denial, the shared helper does too. */
  lemma PolicyDenialIsPermissionError(e: PgError)
    requires IsPolicyDenial(e)
    ensures IsPermissionError(Some(e))
  {
    if e.code != "42501" {
      assert Lower("policy") == "policy";
      ContainsLowerWord(e.message, "policy");
    }
  }

  /** The inline test is strictly narrower: a row hidden by row-level security is
      a denial for the helper but not for the pages. */
  lemma PolicyDenialIsNarrower()
    ensures IsPermissionError(Some(PgError("PGRST116", ""))) && !IsPolicyDenial(PgError("PGRST116", ""))
  {
  }

  const PermissionMessagePrefix: string := "You don't have permission to "
  const PermissionMessageSuffix: string := ". Please ensure you're logged in with the correct account."

  function PermissionErrorMessage(context: string): string
  {
    PermissionMessagePrefix + context + PermissionMessageSuffix
  }

  /** The message names the denied action, and different actions give different messages. */
  lemma PermissionMessageNamesContext(a: string, b: string)
    ensures Contains(PermissionErrorMessage(a), a)
    ensures PermissionErrorMessage(a) == PermissionErrorMessage(b) ==> a == b
  {
    var m := PermissionErrorMessage(a);
    var p := |PermissionMessagePrefix|;
    assert m[p..p + |a|] == a;
    var rest := a + PermissionMessageSuffix;
    assert IsPrefix(a, rest);
    ContainsExtendLeft(PermissionMessagePrefix, rest, a);
    assert PermissionMessagePrefix + rest == m;
    if m == PermissionErrorMessage(b) {
      assert |a| == |b|;
      assert PermissionErrorMessage(b)[p..p + |b|] == b;
    }
  }

  /** What a query call gives back: an answer carrying data or an error, or a thrown error. */
  datatype QueryOutcome<T> = Returned(data: Option<T>, error: Option<PgError>) | Threw(thrown: PgError)

  datatype SafeQueryResult<T> = SafeQueryResult(
    data: Option<T>,
    error: Option<PgError>,
    isPermissionDenied: bool,
    message: string)

  const UnexpectedErrorMessage: string := "An unexpected error occurred"

  /** The shaping shared by `safeSelect`, `safeSingle` and `safeMutate`: never fails,
      carries data only on success, and flags permission denials with the friendly
      message; other errors keep their own message. */
  function ShapeResult<T>(outcome: QueryOutcome<T>, context: string): (r: SafeQueryResult<T>)
    ensures r.isPermissionDenied <==> outcome.Returned? && IsPermissionError(outcome.error)
    ensures r.error.None? <==> outcome.Returned? && outcome.error.None?
    ensures r.error.None? ==> r.data == outcome.data && r.message == ""
    ensures r.error.Some? ==> r.data.None?
    ensures r.isPermissionDenied ==> r.message == PermissionErrorMessage(context)
    ensures outcome.Threw? ==> r.message == UnexpectedErrorMessage
  {
    match outcome
    case Threw(err) => SafeQueryResult(None, Some(err), false, UnexpectedErrorMessage)
    case Returned(data, error) =>
      if error.Some? then
        var denied := IsPermissionError(error);
        SafeQueryResult(None, error, denied, if denied then PermissionErrorMessage(context) else error.value.message)
      else SafeQueryResult(data, None, false, "")
  }

  /** A context left out falls back to the default; any given one is used as is. */
  function ContextOr(context: Option<string>, default: string): string
  {
    if context.Some? then context.value else default
  }

  function SafeSelect<T>(outcome: QueryOutcome<seq<T>>, context: Option<string>): SafeQueryResult<seq<T>>
  {
    ShapeResult(outcome, ContextOr(context, "access this data"))
  }

  function SafeSingle<T>(outcome: QueryOutcome<T>, context: Option<string>): SafeQueryResult<T>
  {
    ShapeResult(outcome, ContextOr(context, "access this data"))
  }

  function SafeMutate<T>(outcome: QueryOutcome<T>, context: Option<string>): SafeQueryResult<T>
  {
    ShapeResult(outcome, ContextOr(context, "perform this action"))
  }

  /** A denied read and a denied write say what was denied: reading by default,
      changing by default, or the caller's own wording. */
  lemma SafeWrappersMessages<T>(outcome: QueryOutcome<T>, rows: QueryOutcome<seq<T>>, context: Option<string>)
    ensures SafeSelect(rows, None).isPermissionDenied ==>
      SafeSelect(rows, None).message == PermissionErrorMessage("access this data")
    ensures SafeMutate(outcome, None).isPermissionDenied ==>
      SafeMutate(outcome, None).message == PermissionErrorMessage("perform this action")
    ensures context.Some? && SafeSingle(outcome, context).isPermissionDenied ==>
      SafeSingle(outcome, context).message == PermissionErrorMessage(context.value)
  {
  }

  // ---------------------------------------------------------------------------
  // Public profiles

  datatype PublicProfile = PublicProfile(id: string, userId: string, fullName: Option<string>, avatarUrl: Option<string>)

  /** `fetchPublicProfile`: the profile row when the lookup answers one without error. */
  function FetchPublicProfile(data: Option<PublicProfile>, error: Option<PgError>): (r: Option<PublicProfile>)
    ensures r.Some? <==> error.None? && data.Some?
    ensures r.Some? ==> r == data
  {
    if error.Some? || data.None? then None else data
  }

  /** The map built by `map.set(profile.user_id, profile)` over the rows: a later
      row for the same user replaces an earlier one. */
  function ProfilesByUser(rows: seq<PublicProfile>): map<string, PublicProfile>
    decreases |rows|
  {
    if rows == [] then map[]
    else ProfilesByUser(rows[..|rows| - 1])[rows[|rows| - 1].userId := rows[|rows| - 1]]
  }

  /** Row `j` is the last of the rows for user `k`. */
  predicate LastRowFor(rows: seq<PublicProfile>, j: int, k: string)
  {
    0 <= j < |rows| && rows[j].userId == k && forall j' :: j < j' < |rows| ==> rows[j'].userId != k
  }

  /** A key of the map holds the last row for that user. */
  lemma {:induction false} LastRowExists(rows: seq<PublicProfile>, k: string)
    requires k in ProfilesByUser(rows)
    ensures exists j :: LastRowFor(rows, j, k) && rows[j] == ProfilesByUser(rows)[k]
    decreases |rows|
  {
    var init := rows[..|rows| - 1];
    var last := rows[|rows| - 1];
    if k == last.userId {
      assert LastRowFor(rows, |rows| - 1, k);
    } else {
      assert k in ProfilesByUser(init);
      LastRowExists(init, k);
      var j :| LastRowFor(init, j, k) && init[j] == ProfilesByUser(init)[k];
      assert LastRowFor(rows, j, k);
    }
  }

  /** A user is a key exactly when some row belongs to them. */
  lemma {:induction false} KeyExists(rows: seq<PublicProfile>, k: string)
    ensures k in ProfilesByUser(rows) <==> exists j :: 0 <= j < |rows| && rows[j].userId == k
    decreases |rows|
  {
    if k in ProfilesByUser(rows) {
      LastRowExists(rows, k);
    } else if rows != [] {
      var init := rows[..|rows| - 1];
      KeyExists(init, k);
      assert rows[|rows| - 1].userId != k;
      forall j | 0 <= j < |rows| - 1
        ensures rows[j].userId != k
      {
        assert init[j] == rows[j];
      }
    }
  }

  /** Every row's user is a key; every key maps to a row of that user, and to the last one. */
  lemma ProfilesByUserLookup(rows: seq<PublicProfile>)
    ensures forall k :: k in ProfilesByUser(rows) <==> exists j :: 0 <= j < |rows| && rows[j].userId == k
    ensures forall k :: k in ProfilesByUser(rows) ==>
      exists j :: LastRowFor(rows, j, k) && rows[j] == ProfilesByUser(rows)[k]
  {
    forall k
      ensures k in ProfilesByUser(rows) <==> exists j :: 0 <= j < |rows| && rows[j].userId == k
    {
      KeyExists(rows, k);
    }
    forall k | k in ProfilesByUser(rows)
      ensures exists j :: LastRowFor(rows, j, k) && rows[j] == ProfilesByUser(rows)[k]
    {
      LastRowExists(rows, k);
    }
  }

  function UserIn(userIds: seq<string>): PublicProfile -> bool
  {
    (p: PublicProfile) => p.userId in userIds
  }

  /** `fetchPublicProfiles`: no query at all for an empty id list; otherwise the
      profiles of the requested users, keyed by user id, or an empty map when the
      query fails. `table` is the profiles table as the query reads it. */
  method FetchPublicProfiles(userIds: seq<string>, table: seq<PublicProfile>, failed: bool)
    returns (profiles: map<string, PublicProfile>, queried: bool)
    ensures queried <==> userIds != []
    ensures profiles == if userIds == [] || failed then map[] else ProfilesByUser(Filter(table, UserIn(userIds)))
    ensures forall k :: k in profiles ==> k in userIds && profiles[k].userId == k
  {
    if |userIds| == 0 {
      return map[], false;
    }
    queried := true;
    profiles := map[];
    if !failed {
      var rows := Filter(table, UserIn(userIds));
      var i := 0;
      while i < |rows|
        invariant 0 <= i <= |rows|
        invariant profiles == ProfilesByUser(rows[..i])
      {
        assert rows[..i + 1][..i] == rows[..i];
        profiles := profiles[rows[i].userId := rows[i]];
        i := i + 1;
      }
      assert rows[..|rows|] == rows;
      ProfilesByUserLookup(rows);
      forall k | k in profiles
        ensures k in userIds && profiles[k].userId == k
      {
        var j :| LastRowFor(rows, j, k) && rows[j] == profiles[k];
        assert UserIn(userIds)(rows[j]);
      }
    }
  }
}
