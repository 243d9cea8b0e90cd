/** The problem list view's logic: which list it shows, the search and tag filter
    over it, the tag chips it offers, and how clicking a chip changes the criteria. */
module ProblemList {
  import opened Domain
  import opened Seqs
  import opened Text
  import opened ProblemsSlice

  /** The list the view works on: the signed-in user's problems or all of them. */
  function BaseList(st: ProblemsState, userProblemsOnly: bool): seq<Problem>
  {
    if userProblemsOnly then st.userProblems else st.allProblems
  }

  /** The tags of a problem, a null `tags` read as none. */
  function TagsOf(p: Problem): seq<string>
  {
    if p.tags.Some? then p.tags.value else []
  }

  /** The test applied to each problem: a non-empty (debounced) search term must
      occur, ignoring case, in the title or the description; then, when tags are
      selected, every one of them must be among the problem's tags. */
  predicate Passes(p: Problem, term: string, selectedTags: seq<string>)
  {
    if term != "" && !Includes(ToLower(p.title), ToLower(term))
                  && !Includes(ToLower(p.description), ToLower(term)) then
      false
    else if |selectedTags| > 0 then
      forall t :: t in selectedTags ==> p.tags.Some? && t in p.tags.value
    else
      true
  }

  /** `filteredProblems`. */
  function FilteredProblems(problems: seq<Problem>, term: string, selectedTags: seq<string>): seq<Problem>
  {
    Filter(problems, (p: Problem) => Passes(p, term, selectedTags))
  }

  /** The two criteria are AND-ed: a problem passes exactly when it matches the search
      (or there is none) and carries every selected tag. A null `tags` carries none. */
  lemma PassesMeans(p: Problem, term: string, selectedTags: seq<string>)
    ensures Passes(p, term, selectedTags) <==>
      (term == "" || Includes(ToLower(p.title), ToLower(term)) || Includes(ToLower(p.description), ToLower(term))) &&
      (forall t :: t in selectedTags ==> t in TagsOf(p))
    ensures |selectedTags| > 0 && p.tags.None? ==> !Passes(p, term, selectedTags)
  {
    if |selectedTags| == 0 {
      assert forall t :: t !in selectedTags;
    } else {
      assert selectedTags[0] in selectedTags;
    }
  }

  /** The filtered list holds exactly the passing problems of the base list, in the
      base list's order. */
  lemma FilteredProblemsAre(problems: seq<Problem>, term: string, selectedTags: seq<string>)
    ensures forall p :: p in FilteredProblems(problems, term, selectedTags) <==>
                        p in problems && Passes(p, term, selectedTags)
    ensures IsSubsequence(FilteredProblems(problems, term, selectedTags), problems)
  {
    FilterKeepsOrder(problems, (p: Problem) => Passes(p, term, selectedTags));
  }

  /** After a delete, whichever list the view works on and whatever the criteria, the
      view shows exactly what it showed before less the records with the deleted id. */
  lemma DeleteLeavesView(st: ProblemsState, id: string, userProblemsOnly: bool,
                         term: string, selectedTags: seq<string>)
    ensures forall p :: p in FilteredProblems(BaseList(AfterDelete(st, id), userProblemsOnly), term, selectedTags) <==>
                        p in FilteredProblems(BaseList(st, userProblemsOnly), term, selectedTags) && p.id != id
  {
    var before := BaseList(st, userProblemsOnly);
    assert BaseList(AfterDelete(st, id), userProblemsOnly) == RemoveById(before, id);
    FilteredProblemsAre(before, term, selectedTags);
    FilteredProblemsAre(RemoveById(before, id), term, selectedTags);
    RemoveByIdPurges(before, id);
  }

  /** With no search term and no selected tag every problem is shown, in order. */
  lemma NoCriteriaShowsAll(problems: seq<Problem>)
    ensures FilteredProblems(problems, "", []) == problems
  {
    FilterKeepsAll(problems, (p: Problem) => Passes(p, "", []));
  }

  /** The filter depends on which tags are selected, not on their order or repetition. */
  lemma FilterIgnoresTagOrder(problems: seq<Problem>, term: string, a: seq<string>, b: seq<string>)
    requires forall t :: t in a <==> t in b
    ensures FilteredProblems(problems, term, a) == FilteredProblems(problems, term, b)
  {
    forall p | p in problems ensures Passes(p, term, a) == Passes(p, term, b) {
      PassesMeans(p, term, a);
      PassesMeans(p, term, b);
    }
    FilterCongruent(problems, (p: Problem) => Passes(p, term, a), (p: Problem) => Passes(p, term, b));
  }

  /** A search for "auth" with the tag "backend" selected keeps a problem titled
      "Auth bug" tagged backend and urgent, and drops the same problem tagged frontend. */
  lemma SearchAndTagScenario(p: Problem, term: string, tag: string)
    requires p.title == "Auth bug" && term == "auth" && tag == "backend"
    ensures Passes(p.(tags := Some([tag, "urgent"])), term, [tag])
    ensures !Passes(p.(tags := Some(["frontend"])), term, [tag])
  {
    var title := ToLower(p.title);
    var lower := ToLower(term);
    assert title[0] == 'a' && title[1] == 'u' && title[2] == 't' && title[3] == 'h';
    assert lower[0] == 'a' && lower[1] == 'u' && lower[2] == 't' && lower[3] == 'h';
    assert lower <= title;
    assert tag !in ["frontend"];
  }

  // ---------------------------------------------------------------------------
  // Tag chips

  /** Every tag occurrence of the list, problem by problem. */
  function TagOccurrences(problems: seq<Problem>): seq<string>
  {
    if problems == [] then []
    else TagOccurrences(problems[..|problems| - 1]) + TagsOf(problems[|problems| - 1])
  }

  lemma {:induction false} TagOccurrencesAre(problems: seq<Problem>)
    ensures forall t :: t in TagOccurrences(problems) <==> exists p :: p in problems && t in TagsOf(p)
    decreases |problems|
  {
    if problems != [] {
      var init := problems[..|problems| - 1];
      var last := problems[|problems| - 1];
      TagOccurrencesAre(init);
      assert problems == init + [last];
      assert TagOccurrences(problems) == TagOccurrences(init) + TagsOf(last);
      forall t | t in TagOccurrences(problems) ensures exists p :: p in problems && t in TagsOf(p) {
        if t in TagsOf(last) {
          assert last in problems;
        } else {
          var p :| p in init && t in TagsOf(p);
          assert p in problems;
        }
      }
      forall t | exists p :: p in problems && t in TagsOf(p) ensures t in TagOccurrences(problems) {
        var p :| p in problems && t in TagsOf(p);
        if p != last {
          assert p in init;
        }
      }
    }
  }

  /** What `Array.from` yields for a `Set` filled from `s` in order: each value once,
      at the place of its first occurrence. */
  function FirstOccurrences(s: seq<string>): (r: seq<string>)
    ensures forall t :: t in r <==> t in s
    ensures NoDuplicates(r)
  {
    if s == [] then []
    else
      var init := s[..|s| - 1];
      var prefix := FirstOccurrences(init);
      assert s == init + [s[|s| - 1]];
      if s[|s| - 1] in init then prefix
      else
        var r := prefix + [s[|s| - 1]];
        assert forall i :: 0 <= i < |prefix| ==> r[i] == prefix[i] && r[i] in prefix;
        r
  }

  /** Adding one more value to the Set: it is appended only if it is new. */
  lemma FirstOccurrencesSnoc(s: seq<string>, t: string)
    ensures FirstOccurrences(s + [t]) ==
            if t in FirstOccurrences(s) then FirstOccurrences(s) else FirstOccurrences(s) + [t]
  {
    assert (s + [t])[..|s|] == s;
  }

  /** The index of the first occurrence of `t` in `s`. */
  function FirstIndex(s: seq<string>, t: string): (k: nat)
    requires t in s
    ensures k < |s| && s[k] == t && t !in s[..k]
  {
    if s[0] == t then 0
    else
      assert s[1..][..FirstIndex(s[1..], t)] == s[1..1 + FirstIndex(s[1..], t)];
      1 + FirstIndex(s[1..], t)
  }

  /** An index that holds `t` with no `t` before it is the first index of `t`. */
  lemma FirstIndexIs(s: seq<string>, t: string, k: nat)
    requires k < |s| && s[k] == t && t !in s[..k]
    ensures FirstIndex(s, t) == k
  {
  }

  /** Appending a value moves no first index, and a new value's first index is the end. */
  lemma FirstIndexSnoc(s: seq<string>, x: string, t: string)
    requires t in s + [x]
    ensures t in s ==> FirstIndex(s + [x], t) == FirstIndex(s, t)
    ensures t !in s ==> FirstIndex(s + [x], t) == |s|
  {
    if t in s {
      var k := FirstIndex(s, t);
      assert (s + [x])[..k] == s[..k];
      FirstIndexIs(s + [x], t, k);
    } else {
      assert (s + [x])[..|s|] == s;
      FirstIndexIs(s + [x], t, |s|);
    }
  }

  /** The values come out in the order of their first occurrences in `s`. */
  lemma {:induction false} FirstOccurrencesOrdered(s: seq<string>)
    ensures forall i, j :: 0 <= i < j < |FirstOccurrences(s)| ==>
              FirstIndex(s, FirstOccurrences(s)[i]) < FirstIndex(s, FirstOccurrences(s)[j])
  {
    if s != [] {
      var init := s[..|s| - 1];
      var x := s[|s| - 1];
      assert s == init + [x];
      FirstOccurrencesOrdered(init);
      var prefix := FirstOccurrences(init);
      var r := FirstOccurrences(s);
      forall i, j | 0 <= i < j < |r| ensures FirstIndex(s, r[i]) < FirstIndex(s, r[j]) {
        assert r[i] in init by {
          if x in init {
            assert r == prefix;
          } else {
            assert r == prefix + [x];
            assert r[i] == prefix[i];
          }
        }
        FirstIndexSnoc(init, x, r[i]);
        FirstIndexSnoc(init, x, r[j]);
        if x !in init && j == |prefix| {
          assert FirstIndex(init, r[i]) < |init|;
        } else {
          assert r[i] == prefix[i] && r[j] == prefix[j];
        }
      }
    }
  }

  lemma TagOccurrencesSnoc(problems: seq<Problem>, i: nat)
    requires i < |problems|
    ensures TagOccurrences(problems[..i + 1]) == TagOccurrences(problems[..i]) + TagsOf(problems[i])
  {
    assert problems[..i + 1][..i] == problems[..i];
  }

  /** `allTags`: the tags of the list's problems, each exactly once, in the order in
      which they first occur. */
  method AllTags(problems: seq<Problem>) returns (tags: seq<string>)
    ensures tags == FirstOccurrences(TagOccurrences(problems))
    ensures NoDuplicates(tags)
    ensures forall t :: t in tags <==> exists p :: p in problems && p.tags.Some? && t in p.tags.value
    ensures forall i, j :: 0 <= i < j < |tags| ==>
              FirstIndex(TagOccurrences(problems), tags[i]) < FirstIndex(TagOccurrences(problems), tags[j])
  {
    var seen: seq<string> := [];
    for i := 0 to |problems|
      invariant seen == FirstOccurrences(TagOccurrences(problems[..i]))
    {
      var ts := TagsOf(problems[i]);
      ghost var done := TagOccurrences(problems[..i]);
      assert done + ts[..0] == done;
      for j := 0 to |ts|
        invariant seen == FirstOccurrences(done + ts[..j])
      {
        assert done + ts[..j + 1] == (done + ts[..j]) + [ts[j]];
        FirstOccurrencesSnoc(done + ts[..j], ts[j]);
        if ts[j] !in seen {
          seen := seen + [ts[j]];
        }
      }
      assert ts[..|ts|] == ts;
      TagOccurrencesSnoc(problems, i);
    }
    assert problems[..|problems|] == problems;
    tags := seen;
    TagOccurrencesAre(problems);
    FirstOccurrencesOrdered(TagOccurrences(problems));
  }

  // ---------------------------------------------------------------------------
  // Toggling a chip

  /** The criteria after clicking a chip: a selected tag is removed, any other added. */
  function Toggled(selectedTags: seq<string>, tag: string): seq<string>
  {
    if tag in selectedTags then RemoveAll(selectedTags, tag) else WithTag(selectedTags, tag)
  }

  /** `toggleTag`: dispatches `removeSelectedTag` or `addSelectedTag`. */
  method ToggleTag(store: ProblemsStore, tag: string)
    modifies store
    ensures store.State() == old(store.State()).(selectedTags := Toggled(old(store.selectedTags), tag))
    ensures tag in store.selectedTags <==> tag !in old(store.selectedTags)
  {
    if tag in store.selectedTags {
      store.RemoveSelectedTag(tag);
    } else {
      store.AddSelectedTag(tag);
      assert tag in store.selectedTags;
    }
  }

  /** Clicking a chip that is not selected twice gives the criteria back exactly;
      clicking a selected one twice gives back the same set of tags (the tag moves
      to the end). Either way the filtered list is the same as before. */
  lemma ToggleTwice(problems: seq<Problem>, term: string, selectedTags: seq<string>, tag: string)
    ensures tag !in selectedTags ==> Toggled(Toggled(selectedTags, tag), tag) == selectedTags
    ensures forall t :: t in Toggled(Toggled(selectedTags, tag), tag) <==> t in selectedTags
    ensures FilteredProblems(problems, term, Toggled(Toggled(selectedTags, tag), tag))
         == FilteredProblems(problems, term, selectedTags)
  {
    var once := Toggled(selectedTags, tag);
    if tag in selectedTags {
      RemoveAllRemoves(selectedTags, tag);
      assert once == RemoveAll(selectedTags, tag);
      assert Toggled(once, tag) == once + [tag];
    } else {
      AddThenRemoveTag(selectedTags, tag);
      assert once == selectedTags + [tag];
    }
    FilterIgnoresTagOrder(problems, term, Toggled(once, tag), selectedTags);
  }
}
