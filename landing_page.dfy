/**
 * The landing page: the idea form (open, edit, cancel, submit and its guard)
 * and the map of page elements whose entrance animation has been triggered.
 */
module LandingPage {
  import opened Wrappers
  import opened JsStrings

  /** `!ideaInput.trim()`: the text is empty or only JavaScript white space. */
  predicate Blank(s: string)
  {
    Trim(s) == []
  }

  /** Blankness, stated without `trim`. */
  lemma BlankIff(s: string)
    ensures Blank(s) <==> forall i :: 0 <= i < |s| ==> IsJsWhitespace(s[i])
  {
    TrimEmptyIff(s);
  }

  // ---------------------------------------------------------------------------
  // The visibility map

  /**
   * One intersection report: whether the element is in view, and its
   * `data-animate` attribute (`None` when the attribute is absent).
   */
  datatype Entry = Entry(isIntersecting: bool, key: Option<string>)

  /** An entry that marks its key visible: in view, with a non-empty key. */
  predicate Reveals(e: Entry)
  {
    e.isIntersecting && e.key.Some? && e.key.value != ""
  }

  /** The keys a batch of entries marks visible. */
  function RevealedKeys(entries: seq<Entry>): (ks: set<string>)
    ensures forall k :: k in ks <==> exists i :: 0 <= i < |entries| && Reveals(entries[i]) && entries[i].key == Some(k)
  {
    set i | 0 <= i < |entries| && Reveals(entries[i]) :: entries[i].key.value
  }

  /** The effect of the observer callback on the map, one functional update per entry in order. */
  function Reveal(vis: map<string, bool>, entries: seq<Entry>): map<string, bool>
  {
    if entries == [] then vis
    else
      var before := Reveal(vis, entries[..|entries| - 1]);
      var e := entries[|entries| - 1];
      if Reveals(e) then before[e.key.value := true] else before
  }

  /**
   * The callback's effect, stated without its order: the revealed keys are
   * added (as `true`) and every other key keeps its old entry.
   */
  lemma {:induction false} RevealIsUnion(vis: map<string, bool>, entries: seq<Entry>)
    ensures Reveal(vis, entries).Keys == vis.Keys + RevealedKeys(entries)
    ensures forall k :: k in RevealedKeys(entries) ==> Reveal(vis, entries)[k]
    ensures forall k :: k in vis && k !in RevealedKeys(entries) ==> Reveal(vis, entries)[k] == vis[k]
  {
    if entries != [] {
      var init := entries[..|entries| - 1];
      RevealIsUnion(vis, init);
      var e := entries[|entries| - 1];
      assert entries == init + [e];
      if Reveals(e) {
        assert RevealedKeys(entries) == RevealedKeys(init) + {e.key.value};
      } else {
        assert RevealedKeys(entries) == RevealedKeys(init);
      }
    }
  }

  /** The map only grows: no key is removed and no `true` becomes `false`. */
  lemma RevealIsMonotone(vis: map<string, bool>, entries: seq<Entry>, k: string)
    requires k in vis
    ensures k in Reveal(vis, entries)
    ensures vis[k] ==> Reveal(vis, entries)[k]
  {
    RevealIsUnion(vis, entries);
  }

  /** Entries that are out of view or carry no key change nothing. */
  lemma QuietEntriesChangeNothing(vis: map<string, bool>, entries: seq<Entry>)
    requires forall i :: 0 <= i < |entries| ==> !Reveals(entries[i])
    ensures Reveal(vis, entries) == vis
  {
    RevealIsUnion(vis, entries);
  }

  // ---------------------------------------------------------------------------
  // The page state

  class Landing {
    var showForm: bool
    var ideaInput: string
    var isLoading: bool
    var isVisible: map<string, bool>

    /**
     * At rest the page is never loading: `handleSubmit` clears the flag in the
     * same turn that set it, since `onValidate` is not awaited.
     */
    predicate Valid()
      reads this
    {
      !isLoading
    }

    /** The page opens with the form closed, an empty idea and nothing revealed. */
    constructor ()
      ensures Valid()
      ensures !showForm && ideaInput == "" && isVisible == map[]
    {
      showForm := false;
      ideaInput := "";
      isLoading := false;
      isVisible := map[];
    }

    /** Either call-to-action button: the form opens and nothing else changes. */
    method OpenForm()
      requires Valid()
      modifies this
      ensures Valid()
      ensures showForm
      ensures ideaInput == old(ideaInput) && isVisible == old(isVisible)
    {
      showForm := true;
    }

    /**
     * Typing into the text area. The area is disabled while loading, and
     * `Valid()` has no submission in flight between events, so here it is enabled.
     */
    method EditIdea(value: string)
      requires Valid()
      modifies this
      ensures Valid()
      ensures ideaInput == value
      ensures showForm == old(showForm) && isVisible == old(isVisible)
    {
      ideaInput := value;
    }

    /**
     * The Cancel button: the form closes and the idea is cleared. Like the
     * text area it is disabled only while loading, which `Valid()` excludes.
     */
    method Cancel()
      requires Valid()
      modifies this
      ensures Valid()
      ensures !showForm && ideaInput == ""
      ensures isVisible == old(isVisible)
    {
      showForm := false;
      ideaInput := "";
    }

    /** `isLoading || !ideaInput.trim()`. */
    function SubmitDisabled(): (d: bool)
      reads this
      ensures d <==> isLoading || Blank(ideaInput)
    {
      isLoading || Trim(ideaInput) == []
    }

    /** At rest the submit button is disabled exactly when the idea is blank. */
    lemma SubmitDisabledIffBlank()
      requires Valid()
      ensures SubmitDisabled() <==> forall i :: 0 <= i < |ideaInput| ==> IsJsWhitespace(ideaInput[i])
    {
      BlankIff(ideaInput);
    }

    /**
     * `handleSubmit`; `calls` lists the arguments `onValidate` receives. A
     * blank idea calls nothing and changes nothing; otherwise `onValidate`
     * receives the untrimmed idea once and the page is not loading afterwards.
     */
    method HandleSubmit() returns (calls: seq<string>)
      requires Valid()
      modifies this
      ensures Valid()
      ensures Blank(old(ideaInput)) ==> calls == []
      ensures !Blank(old(ideaInput)) ==> calls == [old(ideaInput)]
      ensures showForm == old(showForm) && ideaInput == old(ideaInput) && isVisible == old(isVisible)
    {
      if Trim(ideaInput) == [] {
        return [];
      }
      isLoading := true;
      calls := [ideaInput];
      isLoading := false;
    }

    /** The intersection observer's callback for one batch of entries. */
    method Observe(entries: seq<Entry>)
      requires Valid()
      modifies this
      ensures Valid()
      ensures isVisible == Reveal(old(isVisible), entries)
      ensures showForm == old(showForm) && ideaInput == old(ideaInput)
    {
      var i := 0;
      while i < |entries|
        invariant 0 <= i <= |entries|
        invariant isVisible == Reveal(old(isVisible), entries[..i])
        invariant showForm == old(showForm) && ideaInput == old(ideaInput) && !isLoading
      {
        var entry := entries[i];
        if entry.isIntersecting {
          match entry.key {
            case Some(key) =>
              if key != "" {
                isVisible := isVisible[key := true];
              }
            case None =>
          }
        }
        assert entries[..i + 1][..i] == entries[..i];
        i := i + 1;
      }
      assert entries[..|entries|] == entries;
    }
  }
}
