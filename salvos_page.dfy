/** The saved-tutorials page. */
module SavedPage {
  import opened Wrappers
  import opened Types
  import opened Seqs
  import opened AuthContext

  function SavedBy(saved: seq<string>): Tutorial -> bool
  {
    (t: Tutorial) => t.id in saved
  }

  /** The tutorials whose id the user saved, in the order of the store's tutorials (not the order they
      were saved); a saved id without a tutorial contributes nothing. */
  function SavedList(saved: Option<seq<string>>, tutorials: seq<Tutorial>): (r: seq<Tutorial>)
    ensures saved.None? || tutorials == [] ==> r == []
    ensures IsSubsequence(r, tutorials)
    ensures forall i :: 0 <= i < |r| ==> IsSavedIn(saved, r[i].id)
    ensures forall i :: 0 <= i < |tutorials| ==> (tutorials[i] in r <==> IsSavedIn(saved, tutorials[i].id))
  {
    if saved.Some? && |tutorials| > 0 then Filter(tutorials, SavedBy(saved.value)) else []
  }

  /** The list follows the store's order: saving the second seeded tutorial before the first still
      lists the first one first. */
  lemma SavedListFollowsStoreOrder()
    ensures SavedList(Some(["2", "1"]), InitialTutorials) == InitialTutorials
  {
    var ts := InitialTutorials;
    assert ts[0].id == "1" && ts[1].id == "2";
    assert ts[2..] == [];
  }

  datatype SavedView = AccessRequired | SavedListView(list: seq<Tutorial>)

  /** Without a user the page asks to log in; otherwise it shows the saved list. */
  function View(user: Option<User>, tutorials: seq<Tutorial>): (r: SavedView)
    ensures r.AccessRequired? <==> user.None?
    ensures r.SavedListView? ==> r.list == SavedList(user.value.savedTutorials, tutorials)
  {
    if user.None? then AccessRequired else SavedListView(SavedList(user.value.savedTutorials, tutorials))
  }
}
