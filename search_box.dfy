/**
 * The header search box: the query, the results dropdown, and the keyboard
 * selection that moves through it.
 *
 * The debounced fetch is not modelled; what it delivers on success is
 * applied by `ShowResponse`. Navigation is recorded as the list of URLs
 * pushed to the router.
 */
module SearchBox {
  import opened Common
  import opened SearchRoute

  const Red: string := "text-red-600 dark:text-red-400"
  const Orange: string := "text-orange-600 dark:text-orange-400"
  const Green: string := "text-green-600 dark:text-green-400"
  const Blue: string := "text-blue-600 dark:text-blue-400"
  const Gray: string := "text-gray-600 dark:text-gray-400"

  datatype Key = ArrowDown | ArrowUp | Enter | Escape | OtherKey

  /** The selection after an arrow key over `len` results: down stops at the last, up falls off the top to -1. */
  function ArrowStep(key: Key, idx: int, len: nat): (r: int)
    requires key == ArrowDown || key == ArrowUp
    ensures -1 <= idx < len ==> -1 <= r < len
    ensures key == ArrowDown && idx < len - 1 ==> r == idx + 1
    ensures key == ArrowDown && idx >= len - 1 ==> r == idx
    ensures key == ArrowUp ==> r == if idx > 0 then idx - 1 else -1
  {
    if key == ArrowDown then (if idx < len - 1 then idx + 1 else idx)
    else (if idx > 0 then idx - 1 else -1)
  }

  /** The selection after a run of arrow keys. */
  function Arrows(keys: seq<Key>, idx: int, len: nat): int
    requires forall i :: 0 <= i < |keys| ==> keys[i] == ArrowDown || keys[i] == ArrowUp
  {
    if keys == [] then idx else ArrowStep(keys[|keys| - 1], Arrows(keys[..|keys| - 1], idx, len), len)
  }

  /** For a fixed list, a selection that starts in [-1, len-1] stays there under any run of arrow keys. */
  lemma {:induction false} ArrowsStayInRange(keys: seq<Key>, idx: int, len: nat)
    requires forall i :: 0 <= i < |keys| ==> keys[i] == ArrowDown || keys[i] == ArrowUp
    requires -1 <= idx < len
    ensures -1 <= Arrows(keys, idx, len) < len
  {
    if keys != [] {
      ArrowsStayInRange(keys[..|keys| - 1], idx, len);
    }
  }

  function Repeat(key: Key, n: nat): (r: seq<Key>)
    ensures |r| == n && forall i :: 0 <= i < n ==> r[i] == key
  {
    if n == 0 then [] else Repeat(key, n - 1) + [key]
  }

  /** Pressing down `n` times from no selection selects entry `min(n, len) - 1`. */
  lemma {:induction false} DownPresses(n: nat, len: nat)
    ensures Arrows(Repeat(ArrowDown, n), -1, len) == (if n < len then n else len) - 1
  {
    if n > 0 {
      assert Repeat(ArrowDown, n)[..n - 1] == Repeat(ArrowDown, n - 1);
      DownPresses(n - 1, len);
    }
  }

  /** Pressing up `n` times from entry `idx` moves `n` entries up, stopping at no selection. */
  lemma {:induction false} UpPresses(n: nat, idx: int, len: nat)
    requires idx >= -1
    ensures Arrows(Repeat(ArrowUp, n), idx, len) == if idx - n >= -1 then idx - n else -1
  {
    if n > 0 {
      assert Repeat(ArrowUp, n)[..n - 1] == Repeat(ArrowUp, n - 1);
      UpPresses(n - 1, idx, len);
    }
  }

  /** The colour of a result's status, where an urgent or high priority wins over any status. */
  function GetStatusColor(status: string, priority: Option<string>): (r: string)
    ensures priority == Some("urgent") ==> r == Red
    ensures priority == Some("high") ==> r == Orange
    ensures priority !in {Some("urgent"), Some("high")} ==>
      r == (if status in {"done", "completed"} then Green
            else if status == "in_progress" then Blue
            else if status == "blocked" then Red
            else Gray)
  {
    if priority == Some("urgent") then Red
    else if priority == Some("high") then Orange
    else if status == "done" || status == "completed" then Green
    else if status == "in_progress" then Blue
    else if status == "blocked" then Red
    else Gray
  }

  /** An icon per result kind (person, folder, check mark), and a page for anything else. */
  function GetTypeIcon(kind: string): (r: string)
    ensures kind == "client" ==> r == "\U{1F464}"
    ensures kind == "project" ==> r == "\U{1F4C1}"
    ensures kind == "task" ==> r == "\U{2705}"
    ensures kind !in {"client", "project", "task"} ==> r == "\U{1F4C4}"
    ensures kind in {"client", "project", "task"} ==> r != "\U{1F4C4}"
  {
    if kind == "client" then "\U{1F464}"
    else if kind == "project" then "\U{1F4C1}"
    else if kind == "task" then "\U{2705}"
    else "\U{1F4C4}"
  }

  class SearchBoxState {
    var query: string
    var results: seq<SearchResult>
    var databases: seq<SearchDatabase>
    var showResults: bool
    var selectedIndex: int
    /** The URLs pushed to the router, oldest first. */
    var navigations: seq<string>

    constructor ()
      ensures query == "" && results == [] && databases == [] && !showResults && selectedIndex == -1
      ensures navigations == []
    {
      query := "";
      results := [];
      databases := [];
      showResults := false;
      selectedIndex := -1;
      navigations := [];
    }

    /** Typing: a blank query clears the results and databases and hides the dropdown. */
    method SetQuery(q: string)
      modifies this
      ensures query == q && selectedIndex == old(selectedIndex) && navigations == old(navigations)
      ensures Blank(q) ==> results == [] && databases == [] && !showResults
      ensures !Blank(q) ==> results == old(results) && databases == old(databases) && showResults == old(showResults)
    {
      query := q;
      if Trim(query) == "" {
        results := [];
        databases := [];
        showResults := false;
      }
    }

    /** A successful response replaces the results and databases and opens the dropdown; the selection is kept. */
    method ShowResponse(newResults: seq<SearchResult>, newDatabases: seq<SearchDatabase>)
      modifies this
      ensures results == newResults && databases == newDatabases && showResults
      ensures query == old(query) && selectedIndex == old(selectedIndex) && navigations == old(navigations)
    {
      results := newResults;
      databases := newDatabases;
      showResults := true;
    }

    /** Goes to the result's URL and resets the box: no query, no results, dropdown hidden, no selection. */
    method NavigateToResult(result: SearchResult)
      modifies this
      ensures navigations == old(navigations) + [result.url]
      ensures query == "" && results == [] && !showResults && selectedIndex == -1
      ensures databases == old(databases)
    {
      navigations := navigations + [result.url];
      query := "";
      results := [];
      showResults := false;
      selectedIndex := -1;
    }

    method HandleKeyDown(key: Key)
      modifies this
      ensures !old(showResults) || old(results) == [] ==>
        query == old(query) && results == old(results) && showResults == old(showResults)
        && selectedIndex == old(selectedIndex) && navigations == old(navigations)
      ensures old(showResults) && old(results) != [] && key in {ArrowDown, ArrowUp} ==>
        selectedIndex == ArrowStep(key, old(selectedIndex), |old(results)|)
        && query == old(query) && showResults && results == old(results) && navigations == old(navigations)
      ensures old(showResults) && old(results) != [] && key == Enter ==>
        if 0 <= old(selectedIndex) < |old(results)| then
          navigations == old(navigations) + [old(results)[old(selectedIndex)].url]
          && query == "" && results == [] && !showResults && selectedIndex == -1
        else
          navigations == old(navigations) && selectedIndex == old(selectedIndex) && showResults
          && query == old(query) && results == old(results)
      ensures old(showResults) && old(results) != [] && key == Escape ==>
        !showResults && selectedIndex == -1 && query == old(query) && results == old(results)
        && navigations == old(navigations)
      ensures key == OtherKey ==>
        query == old(query) && results == old(results) && showResults == old(showResults)
        && selectedIndex == old(selectedIndex) && navigations == old(navigations)
      ensures databases == old(databases)
    {
      if !showResults || |results| == 0 {
        return;
      }
      match key
      case ArrowDown =>
        selectedIndex := if selectedIndex < |results| - 1 then selectedIndex + 1 else selectedIndex;
      case ArrowUp =>
        selectedIndex := if selectedIndex > 0 then selectedIndex - 1 else -1;
      case Enter =>
        if selectedIndex >= 0 && selectedIndex < |results| {
          NavigateToResult(results[selectedIndex]);
        }
      case Escape =>
        showResults := false;
        selectedIndex := -1;
      case OtherKey =>
    }
  }
}
