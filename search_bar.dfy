/**
 * The search box (src/components/SearchBar.jsx): typing is debounced by
 * 800 ms, and a search fires, from the debounced value or from submit, only
 * when the normalised query is non-empty and differs from the last one
 * searched. The 800 ms timer is an explicit deadline that `Tick` checks;
 * `fired` records the arguments of the `onSearch` calls in order.
 */
module SearchBar {
  import opened Wrappers
  import opened Text

  const DebounceMs: int := 800

  /** Whether a query with normal form `norm` fires after `last` was searched. */
  predicate Fires(norm: string, last: string) {
    norm != "" && norm != last
  }

  /**
   * What the searches so far say about `lastSearched`: it is the normal form
   * of the last search (or empty before any); no search was blank; no two
   * consecutive searches share a normal form.
   */
  ghost predicate History(fired: seq<string>, lastSearched: string) {
    (fired == [] ==> lastSearched == "")
    && (fired != [] ==> lastSearched == NormalizeQuery(fired[|fired| - 1]))
    && (forall i :: 0 <= i < |fired| ==> NormalizeQuery(fired[i]) != "")
    && (forall i :: 0 <= i < |fired| - 1 ==> NormalizeQuery(fired[i]) != NormalizeQuery(fired[i + 1]))
  }

  /** Firing a query whose normal form `Fires` extends the history. */
  lemma FiringExtendsHistory(fired: seq<string>, lastSearched: string, v: string)
    requires History(fired, lastSearched) && Fires(NormalizeQuery(v), lastSearched)
    ensures History(fired + [v], NormalizeQuery(v))
  {
    var f := fired + [v];
    forall i | 0 <= i < |f| - 1
      ensures NormalizeQuery(f[i]) != NormalizeQuery(f[i + 1])
    {
      if i + 1 < |fired| {
        assert f[i] == fired[i] && f[i + 1] == fired[i + 1];
      } else {
        assert f[i] == fired[|fired| - 1] && f[i + 1] == v;
      }
    }
    forall i | 0 <= i < |f|
      ensures NormalizeQuery(f[i]) != ""
    {
      if i < |fired| {
        assert f[i] == fired[i];
      }
    }
  }

  class SearchBox {
    var query: string
    var debouncedQuery: string
    /** `lastSearchedRef.current`. */
    var lastSearched: string
    /** When the pending `setTimeout` will run, if one is pending. */
    var deadline: Option<int>
    var fired: seq<string>

    ghost predicate Valid()
      reads this
    {
      History(fired, lastSearched)
    }

    /** Mounting starts the debounce timer for the empty query. */
    constructor (now: int)
      ensures Valid()
      ensures query == "" && debouncedQuery == "" && lastSearched == "" && fired == []
      ensures deadline == Some(now + DebounceMs)
    {
      query, debouncedQuery, lastSearched := "", "", "";
      deadline := Some(now + DebounceMs);
      fired := [];
    }

    /** A keystroke: a changed query restarts the timer (the old one is cleared). */
    method Type(q: string, now: int)
      requires Valid()
      modifies this`query, this`deadline
      ensures Valid()
      ensures query == q
      ensures deadline == (if q != old(query) then Some(now + DebounceMs) else old(deadline))
    {
      if q != query {
        query := q;
        deadline := Some(now + DebounceMs);
      }
    }

    /**
     * `setDebouncedQuery(v)` and the effect it triggers when the value
     * changes: search with the raw value if its normal form fires.
     */
    method SetDebounced(v: string)
      requires Valid()
      modifies this`debouncedQuery, this`lastSearched, this`fired
      ensures Valid()
      ensures debouncedQuery == v
      ensures var searched := v != old(debouncedQuery) && Fires(NormalizeQuery(v), old(lastSearched));
        && fired == old(fired) + (if searched then [v] else [])
        && lastSearched == (if searched then NormalizeQuery(v) else old(lastSearched))
    {
      if v != debouncedQuery {
        debouncedQuery := v;
        var normalized := NormalizeQuery(v);
        if normalized != "" && normalized != lastSearched {
          FiringExtendsHistory(fired, lastSearched, v);
          lastSearched := normalized;
          fired := fired + [v];
        }
      }
    }

    /** Time passes: a timer whose deadline has come sets the debounced query. */
    method Tick(now: int)
      requires Valid()
      modifies this`debouncedQuery, this`lastSearched, this`fired, this`deadline
      ensures Valid()
      ensures old(deadline).Some? && now >= old(deadline).value ==>
        var searched := old(query) != old(debouncedQuery) && Fires(NormalizeQuery(old(query)), old(lastSearched));
        && deadline == None && debouncedQuery == old(query)
        && fired == old(fired) + (if searched then [old(query)] else [])
        && lastSearched == (if searched then NormalizeQuery(old(query)) else old(lastSearched))
      ensures !(old(deadline).Some? && now >= old(deadline).value) ==>
        unchanged(this)
    {
      if deadline.Some? && now >= deadline.value {
        deadline := None;
        SetDebounced(query);
      }
    }

    /**
     * `handleSubmit`: the trimmed query is searched at once when it is
     * non-empty and its lower-case form is not the last searched value.
     */
    method Submit()
      requires Valid()
      modifies this`debouncedQuery, this`lastSearched, this`fired
      ensures Valid()
      ensures var t := Trim(query);
        if t != "" && ToLower(t) != old(lastSearched) then
          fired == old(fired) + [t] && lastSearched == ToLower(t) && debouncedQuery == t
        else
          fired == old(fired) && lastSearched == old(lastSearched) && debouncedQuery == old(debouncedQuery)
    {
      var t := Trim(query);
      if t != "" && ToLower(t) != lastSearched {
        TrimIdempotent(query);
        assert NormalizeQuery(t) == ToLower(t);
        FiringExtendsHistory(fired, lastSearched, t);
        lastSearched := ToLower(t);
        fired := fired + [t];
        SetDebounced(t);
      }
    }
  }

  /** A query of only white space never fires, whatever was searched before. */
  lemma BlankQueryNeverFires(q: string, last: string)
    requires AllWhitespace(q)
    ensures !Fires(NormalizeQuery(q), last)
    ensures !Fires(ToLower(Trim(q)), last)
  {
    TrimAfterLeadingWhitespace(q, "");
    assert q + "" == q;
  }

  /** "Apple" and " apple " have the same normal form. */
  lemma VariantsNormalizeAlike()
    ensures NormalizeQuery("Apple") == "apple"
    ensures NormalizeQuery(" apple ") == "apple"
  {
    TrimOfTrimmed("Apple");
    assert Trim(" apple ") == "apple" by {
      TrimAfterLeadingWhitespace(" ", "apple ");
      TrimBeforeTrailingWhitespace("apple", ' ');
      TrimOfTrimmed("apple");
    }
  }

  /**
   * Typing "Apple", waiting, then typing " apple " and waiting searches once:
   * the second query is a variant of the first.
   */
  method TypeTwoVariants(t0: int) returns (searches: seq<string>)
    ensures searches == ["Apple"]
  {
    VariantsNormalizeAlike();
    var box := new SearchBox(t0);
    box.Type("Apple", t0 + 10);
    assert box.deadline == Some(t0 + 10 + DebounceMs) && box.debouncedQuery == "";
    box.Tick(t0 + 10 + DebounceMs);
    assert box.fired == ["Apple"] && box.lastSearched == "apple" && box.debouncedQuery == "Apple";
    box.Type(" apple ", t0 + 2000);
    assert box.deadline == Some(t0 + 2000 + DebounceMs);
    assert !Fires(NormalizeQuery(box.query), box.lastSearched);
    box.Tick(t0 + 2000 + DebounceMs);
    searches := box.fired;
  }
}
