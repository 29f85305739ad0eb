/**
 * The Notion OAuth helpers: the authorization URL, database titles and
 * descriptions, and the structural check of a database against the
 * properties each portal table needs.
 *
 * The process environment (`NOTION_CLIENT_ID`, `NOTION_REDIRECT_URI`) is a
 * parameter; a database is reduced to its title and description fragments
 * and its property names in `Object.keys` order.
 */
module NotionOAuth {
  import opened Common

  const AuthorizeUrl: string := "https://api.notion.com/v1/oauth/authorize"
  const DefaultRedirectUri: string := "http://localhost:3000/api/auth/notion/callback"
  const ClientIdMissing: string := "NOTION_CLIENT_ID is not configured"
  const UntitledDatabase: string := "Untitled Database"

  datatype Result<T> = Success(value: T) | Failure(error: string)

  /** The configured environment; an unset or empty variable is falsy. */
  datatype Env = Env(clientId: Option<string>, redirectUri: Option<string>)

  /** The authorization URL: the endpoint and its query parameters, in insertion order. */
  datatype AuthUrl = AuthUrl(endpoint: string, params: seq<(string, string)>)

  datatype NotionDatabase = NotionDatabase(
    id: string,
    title: seq<string>,
    description: seq<string>,
    properties: seq<string>)

  datatype DatabaseType = Clients | Projects | Tasks

  datatype Validation = Validation(valid: bool, missingProperties: seq<string>, suggestions: Option<seq<string>>)

  predicate Truthy(s: Option<string>)
  {
    s.Some? && s.value != ""
  }

  // ---------------------------------------------------------------------------
  // getNotionAuthUrl
  // ---------------------------------------------------------------------------

  /** The value stored under `key`, if any. */
  function Param(params: seq<(string, string)>, key: string): Option<string>
  {
    if params == [] then None
    else if params[0].0 == key then Some(params[0].1)
    else Param(params[1..], key)
  }

  /**
   * Fails when no client id is configured; otherwise asks for a code for the
   * user owner, and carries `state` exactly when a non-empty one is given.
   */
  function GetNotionAuthUrl(env: Env, state: Option<string>): (r: Result<AuthUrl>)
    ensures !Truthy(env.clientId) <==> r == Failure(ClientIdMissing)
    ensures r.Success? ==>
      r.value.endpoint == AuthorizeUrl
      && Param(r.value.params, "client_id") == env.clientId
      && Param(r.value.params, "response_type") == Some("code")
      && Param(r.value.params, "redirect_uri") ==
           (if Truthy(env.redirectUri) then env.redirectUri else Some(DefaultRedirectUri))
      && Param(r.value.params, "owner") == Some("user")
      && Param(r.value.params, "state") == (if Truthy(state) then state else None)
  {
    if !Truthy(env.clientId) then Failure(ClientIdMissing)
    else
      var redirect := if Truthy(env.redirectUri) then env.redirectUri.value else DefaultRedirectUri;
      var params := [("client_id", env.clientId.value), ("response_type", "code"),
                     ("redirect_uri", redirect), ("owner", "user")];
      var all := if Truthy(state) then params + [("state", state.value)] else params;
      AuthParams(env.clientId.value, redirect, state, all);
      Success(AuthUrl(AuthorizeUrl, all))
  }

  lemma AuthParams(clientId: string, redirect: string, state: Option<string>, all: seq<(string, string)>)
    requires var params := [("client_id", clientId), ("response_type", "code"),
                            ("redirect_uri", redirect), ("owner", "user")];
      all == if Truthy(state) then params + [("state", state.value)] else params
    ensures Param(all, "client_id") == Some(clientId)
    ensures Param(all, "response_type") == Some("code")
    ensures Param(all, "redirect_uri") == Some(redirect)
    ensures Param(all, "owner") == Some("user")
    ensures Param(all, "state") == (if Truthy(state) then state else None)
  {
    var a1 := all[1..];
    var a2 := a1[1..];
    var a3 := a2[1..];
    var rest := a3[1..];
    assert all[0] == ("client_id", clientId) && a1[0] == ("response_type", "code");
    assert a2[0] == ("redirect_uri", redirect) && a3[0] == ("owner", "user");
    assert Param(all, "redirect_uri") == Param(a1, "redirect_uri") == Param(a2, "redirect_uri");
    assert Param(all, "owner") == Param(a1, "owner") == Param(a2, "owner") == Param(a3, "owner");
    assert Param(all, "state") == Param(a1, "state") == Param(a2, "state") == Param(a3, "state")
        == Param(rest, "state");
    if Truthy(state) {
      assert rest == [("state", state.value)];
    } else {
      assert rest == [];
    }
  }

  // ---------------------------------------------------------------------------
  // Titles and descriptions
  // ---------------------------------------------------------------------------

  /** The joined, trimmed title, or `Untitled Database` when that is empty. */
  function GetDatabaseTitle(db: NotionDatabase): (r: string)
    ensures r != [] && !IsSpace(r[0]) && !IsSpace(r[|r| - 1])
    ensures Blank(Concat(db.title)) ==> r == UntitledDatabase
    ensures !Blank(Concat(db.title)) ==> r == Trim(Concat(db.title))
  {
    var t := Trim(Concat(db.title));
    if t == "" then UntitledDatabase else t
  }

  /** The joined, trimmed description, with no fallback. */
  function GetDatabaseDescription(db: NotionDatabase): (r: string)
    ensures r == [] <==> Blank(Concat(db.description))
    ensures r != [] ==> !IsSpace(r[0]) && !IsSpace(r[|r| - 1])
    ensures OccursAt(Concat(db.description), r, LeadingSpaces(Concat(db.description)))
    ensures Blank(Concat(db.description)[LeadingSpaces(Concat(db.description)) + |r|..])
  {
    Trim(Concat(db.description))
  }

  // ---------------------------------------------------------------------------
  // validateDatabaseStructure
  // ---------------------------------------------------------------------------

  function RequiredProperties(t: DatabaseType): (r: seq<string>)
    ensures |r| == (if t == Tasks then 5 else 4)
  {
    match t
    case Clients => ["Name", "Email", "Company", "Status"]
    case Projects => ["Name", "Client", "Status", "Priority"]
    case Tasks => ["Name", "Project", "Status", "Priority", "Assignee"]
  }

  /** Equal, or one contains the other, ignoring case. */
  function Similar(prop: string): string -> bool
  {
    (existing: string) =>
      ToLower(existing) == ToLower(prop)
      || Contains(ToLower(existing), ToLower(prop))
      || Contains(ToLower(prop), ToLower(existing))
  }

  /** What happens to one required property. */
  datatype Outcome = Present | Suggested(similar: string) | Missing

  /**
   * Present by exact name; otherwise suggested by the first similar existing
   * name, unless that name is empty (falsy), in which case it is missing.
   */
  function Classify(existing: seq<string>, prop: string): (o: Outcome)
    ensures o == Present <==> prop in existing
    ensures o.Suggested? ==> o.similar != "" && exists k :: FirstAt(Similar(prop), existing, k) && existing[k] == o.similar
    ensures o == Missing <==>
      prop !in existing && forall k :: FirstAt(Similar(prop), existing, k) ==> existing[k] == ""
  {
    if prop in existing then Present
    else
      var similar := Find(Similar(prop), existing);
      if similar.Some? && similar.value != "" then
        Suggested(similar.value)
      else
        assert forall k :: FirstAt(Similar(prop), existing, k) ==> existing[k] == "" by {
          forall k | FirstAt(Similar(prop), existing, k) ensures existing[k] == "" {
            var k0 :| FirstAt(Similar(prop), existing, k0) && existing[k0] == similar.value;
            FirstAtUnique(Similar(prop), existing, k, k0);
          }
        }
        Missing
  }

  /** A suggestion names an existing property similar to the required one. */
  lemma SuggestionIsSimilar(existing: seq<string>, prop: string)
    requires Classify(existing, prop).Suggested?
    ensures var s := Classify(existing, prop).similar;
      s in existing && (ToLower(s) == ToLower(prop) || Contains(ToLower(s), ToLower(prop)) || Contains(ToLower(prop), ToLower(s)))
  {
  }

  /** An absent property with a non-empty similar name ahead of every empty one is suggested, never missing. */
  lemma SimilarNameIsSuggested(existing: seq<string>, prop: string, k: nat)
    requires prop !in existing && FirstAt(Similar(prop), existing, k) && existing[k] != ""
    ensures Classify(existing, prop) == Suggested(existing[k])
  {
    var o := Classify(existing, prop);
    if o.Suggested? {
      var k0 :| FirstAt(Similar(prop), existing, k0) && existing[k0] == o.similar;
      FirstAtUnique(Similar(prop), existing, k, k0);
    }
  }

  function SuggestionText(similar: string, prop: string): string
  {
    "Consider using '" + similar + "' for '" + prop + "'"
  }

  /** The missing properties among `required`, in their order. */
  function MissingOf(existing: seq<string>, required: seq<string>): seq<string>
  {
    if required == [] then []
    else
      var last := required[|required| - 1];
      MissingOf(existing, required[..|required| - 1])
      + (if Classify(existing, last) == Missing then [last] else [])
  }

  /** The suggestion one required property contributes: one text when it is suggested, none otherwise. */
  function SuggestionFor(existing: seq<string>): string -> seq<string>
  {
    (prop: string) =>
      var o := Classify(existing, prop);
      if o.Suggested? then [SuggestionText(o.similar, prop)] else []
  }

  /** The suggestions for `required`, in their order. */
  function SuggestionsOf(existing: seq<string>, required: seq<string>): seq<string>
  {
    FlatMap(SuggestionFor(existing), required)
  }

  method ValidateDatabaseStructure(db: NotionDatabase, t: DatabaseType) returns (r: Validation)
    ensures r.missingProperties == MissingOf(db.properties, RequiredProperties(t))
    ensures r.valid <==> r.missingProperties == []
    ensures var s := SuggestionsOf(db.properties, RequiredProperties(t));
      r.suggestions == if s == [] then None else Some(s)
  {
    var required := RequiredProperties(t);
    var existing := db.properties;
    var missing: seq<string> := [];
    var suggestions: seq<string> := [];
    var i := 0;
    while i < |required|
      invariant 0 <= i <= |required|
      invariant missing == MissingOf(existing, required[..i])
      invariant suggestions == SuggestionsOf(existing, required[..i])
    {
      var prop := required[i];
      assert required[..i + 1][..i] == required[..i];
      if prop !in existing {
        var similar := Find(Similar(prop), existing);
        if similar.Some? && similar.value != "" {
          suggestions := suggestions + [SuggestionText(similar.value, prop)];
        } else {
          missing := missing + [prop];
        }
      }
      i := i + 1;
    }
    assert required[..i] == required;
    r := Validation(missing == [], missing, if |suggestions| > 0 then Some(suggestions) else None);
  }

  /** The missing list keeps the order of `required` and holds exactly its missing entries. */
  lemma {:induction false} MissingExactly(existing: seq<string>, required: seq<string>)
    ensures IsSubsequence(MissingOf(existing, required), required)
    ensures forall p :: p in MissingOf(existing, required) <==> p in required && Classify(existing, p) == Missing
  {
    if required != [] {
      var init := required[..|required| - 1];
      var last := required[|required| - 1];
      MissingExactly(existing, init);
      assert init + [last] == required;
      SubsequenceSnoc(MissingOf(existing, init), init, last, Classify(existing, last) == Missing);
    }
  }

  /** Each suggestion is the text for one required property that is suggested, and each such property has its text. */
  lemma SuggestionsExactly(existing: seq<string>, required: seq<string>)
    ensures forall x :: x in SuggestionsOf(existing, required) <==>
      exists i :: 0 <= i < |required| && Classify(existing, required[i]).Suggested?
                  && x == SuggestionText(Classify(existing, required[i]).similar, required[i])
  {
    FlatMapMembers(SuggestionFor(existing), required);
  }

  /** Extending both sides of a subsequence by one element, or only the longer side. */
  lemma {:induction false} SubsequenceSnoc(r: seq<string>, s: seq<string>, x: string, keep: bool)
    requires IsSubsequence(r, s)
    ensures IsSubsequence(r + (if keep then [x] else []), s + [x])
    decreases |s|
  {
    var r' := r + (if keep then [x] else []);
    if r == [] {
      if keep {
        assert r' == [x];
        SubsequenceOfSingleton(s, x);
      }
    } else if s == [] {
    } else {
      assert (s + [x])[1..] == s[1..] + [x];
      if r[0] == s[0] && IsSubsequence(r[1..], s[1..]) {
        SubsequenceSnoc(r[1..], s[1..], x, keep);
        assert r'[1..] == r[1..] + (if keep then [x] else []);
      } else {
        SubsequenceSnoc(r, s[1..], x, keep);
      }
    }
  }

  lemma {:induction false} SubsequenceOfSingleton(s: seq<string>, x: string)
    ensures IsSubsequence([x], s + [x])
    decreases |s|
  {
    if s != [] {
      assert (s + [x])[1..] == s[1..] + [x];
      SubsequenceOfSingleton(s[1..], x);
    } else {
      assert [x][1..] == [];
    }
  }

  /** Every required property is present, suggested or missing, so the three counts add up. */
  lemma {:induction false} OutcomesPartition(existing: seq<string>, required: seq<string>)
    ensures |MissingOf(existing, required)| + |SuggestionsOf(existing, required)|
            + |Filter((p: string) => p in existing, required)| == |required|
  {
    if required != [] {
      var init := required[..|required| - 1];
      var last := required[|required| - 1];
      assert init + [last] == required;
      OutcomesPartition(existing, init);
      FilterConcat((p: string) => p in existing, init, [last]);
      assert |MissingOf(existing, required)| ==
        |MissingOf(existing, init)| + if Classify(existing, last) == Missing then 1 else 0;
      assert |SuggestionsOf(existing, required)| ==
        |SuggestionsOf(existing, init)| + |SuggestionFor(existing)(last)|;
      OneOutcome(existing, last);
    }
  }

  /** One required property adds exactly one entry: a presence, a suggestion or a missing name. */
  lemma OneOutcome(existing: seq<string>, prop: string)
    ensures (if Classify(existing, prop) == Missing then 1 else 0) + |SuggestionFor(existing)(prop)|
            + |Filter((p: string) => p in existing, [prop])| == 1
  {
    assert [prop][1..] == [];
  }

  /** A database carrying every required name exactly is valid and gets no suggestions. */
  lemma AllPresentIsValid(existing: seq<string>, required: seq<string>)
    requires forall i :: 0 <= i < |required| ==> required[i] in existing
    ensures MissingOf(existing, required) == [] && SuggestionsOf(existing, required) == []
  {
    OutcomesPartition(existing, required);
    FilterAll((p: string) => p in existing, required);
  }
}
