/** The requests page: the upvote toggle, the filtered and popularity-sorted listing, and the guard on
    creating a request. */
module RequestsPage {
  import opened Wrappers
  import opened Types
  import opened Seqs
  import opened Text
  import opened AuthContext

  /** `upvotes` counts `upvotedBy`, which names each voter once. */
  predicate VoteConsistent(r: TutorialRequest)
  {
    r.upvotes == |r.upvotedBy| && NoDuplicates(r.upvotedBy)
  }

  /** Every seeded request is consistent. */
  lemma SeededRequestsConsistent()
    ensures forall i :: 0 <= i < |InitialRequests| ==> VoteConsistent(InitialRequests[i])
  {
  }

  /** One user's vote toggle on one request: a voter is removed and the count drops by one, anyone
      else is appended and the count rises by one. Nothing else about the request changes. */
  function ToggleVote(r: TutorialRequest, userId: string): (t: TutorialRequest)
    ensures t.(upvotes := r.upvotes, upvotedBy := r.upvotedBy) == r
    ensures userId in r.upvotedBy ==>
              t.upvotes == r.upvotes - 1 && userId !in t.upvotedBy && IsSubsequence(t.upvotedBy, r.upvotedBy)
    ensures userId !in r.upvotedBy ==> t.upvotes == r.upvotes + 1 && t.upvotedBy == r.upvotedBy + [userId]
    ensures forall x :: x != userId ==> (x in t.upvotedBy <==> x in r.upvotedBy)
  {
    if userId in r.upvotedBy then
      var kept := Without(r.upvotedBy, userId);
      assert forall x :: x in kept <==> x in r.upvotedBy && x != userId by {
        forall x ensures x in kept <==> x in r.upvotedBy && x != userId {
          if x in r.upvotedBy {
            var i :| 0 <= i < |r.upvotedBy| && r.upvotedBy[i] == x;
          }
          if x in kept {
            var i :| 0 <= i < |kept| && kept[i] == x;
          }
        }
      }
      r.(upvotes := r.upvotes - 1, upvotedBy := kept)
    else
      r.(upvotes := r.upvotes + 1, upvotedBy := r.upvotedBy + [userId])
  }

  /** A toggle keeps the count equal to the number of distinct voters. */
  lemma ToggleVoteKeepsConsistent(r: TutorialRequest, userId: string)
    requires VoteConsistent(r)
    ensures VoteConsistent(ToggleVote(r, userId))
  {
    var t := ToggleVote(r, userId);
    if userId in r.upvotedBy {
      WithoutUnique(r.upvotedBy, userId);
      SubsequenceNoDuplicates(t.upvotedBy, r.upvotedBy);
    } else {
      assert forall i :: 0 <= i < |r.upvotedBy| ==> t.upvotedBy[i] == r.upvotedBy[i];
    }
  }

  /** Two toggles by the same user restore the count and the set of voters. */
  lemma ToggleVoteTwice(r: TutorialRequest, userId: string)
    ensures var t := ToggleVote(ToggleVote(r, userId), userId);
      && t.upvotes == r.upvotes
      && (forall x :: x in t.upvotedBy <==> x in r.upvotedBy)
      && t.(upvotedBy := r.upvotedBy) == r
  {
  }

  /** `handleUpvote`'s map: only the requests with the id are toggled. */
  function Upvote(rs: seq<TutorialRequest>, requestId: string, userId: string): (r: seq<TutorialRequest>)
    ensures |r| == |rs|
    ensures forall i :: 0 <= i < |rs| && rs[i].id != requestId ==> r[i] == rs[i]
    ensures forall i :: 0 <= i < |rs| && rs[i].id == requestId ==> r[i] == ToggleVote(rs[i], userId)
  {
    seq(|rs|, i requires 0 <= i < |rs| => if rs[i].id == requestId then ToggleVote(rs[i], userId) else rs[i])
  }

  /** If every request is consistent before an upvote, every request is consistent after it. */
  lemma UpvoteKeepsConsistent(rs: seq<TutorialRequest>, requestId: string, userId: string)
    requires forall i :: 0 <= i < |rs| ==> VoteConsistent(rs[i])
    ensures var r := Upvote(rs, requestId, userId); forall i :: 0 <= i < |r| ==> VoteConsistent(r[i])
  {
    forall i | 0 <= i < |rs| && rs[i].id == requestId
      ensures VoteConsistent(Upvote(rs, requestId, userId)[i])
    {
      ToggleVoteKeepsConsistent(rs[i], userId);
    }
  }

  /** The upvote button: nothing happens without a user. */
  method HandleUpvote(s: ClientStore, requestId: string)
    modifies s
    ensures old(s.user).None? ==> s.State() == old(s.State())
    ensures old(s.user).Some? ==>
              s.State() == old(s.State()).(requests := Upvote(old(s.requests), requestId, old(s.user).value.id))
  {
    if s.user.None? {
      return;
    }
    s.requests := Upvote(s.requests, requestId, s.user.value.id);
  }

  // ---------------------------------------------------------------------------------------------
  // The listing

  /** The search matches title or description ignoring case; an absent or empty category matches all. */
  predicate MatchesRequest(r: TutorialRequest, query: string, category: Option<string>)
  {
    (IncludesIgnoringCase(r.title, query) || IncludesIgnoringCase(r.description, query))
    && (category.None? || category.value == "" || r.category == category.value)
  }

  predicate ByPopularity(s: seq<TutorialRequest>)
  {
    forall i, j :: 0 <= i < j < |s| ==> s[i].upvotes >= s[j].upvotes
  }

  /** Putting a request with at least as many votes as the head in front keeps the order. */
  lemma PrependByPopularity(h: TutorialRequest, t: seq<TutorialRequest>)
    requires ByPopularity(t)
    requires t == [] || h.upvotes >= t[0].upvotes
    ensures ByPopularity([h] + t)
  {
    forall i, j | 0 <= i < j < |[h] + t| ensures ([h] + t)[i].upvotes >= ([h] + t)[j].upvotes {
      if i == 0 {
        assert t[0].upvotes >= t[j - 1].upvotes || j == 1;
      }
    }
  }

  /** Insert `x` in front of the first request with no more votes than it. */
  function InsertByVotes(x: TutorialRequest, s: seq<TutorialRequest>): (r: seq<TutorialRequest>)
    ensures multiset(r) == multiset(s) + multiset{x}
    ensures r[0] == x || (s != [] && r[0] == s[0])
    ensures ByPopularity(s) ==> ByPopularity(r)
  {
    if s == [] || s[0].upvotes <= x.upvotes then
      assert ByPopularity(s) ==> ByPopularity([x] + s) by {
        if ByPopularity(s) {
          PrependByPopularity(x, s);
        }
      }
      [x] + s
    else
      var rest := InsertByVotes(x, s[1..]);
      assert s == [s[0]] + s[1..];
      assert ByPopularity(s) ==> ByPopularity([s[0]] + rest) by {
        if ByPopularity(s) {
          assert ByPopularity(s[1..]);
          PrependByPopularity(s[0], rest);
        }
      }
      [s[0]] + rest
  }

  /** The "popular" order: a stable sort by decreasing votes. */
  function SortByPopularity(s: seq<TutorialRequest>): (r: seq<TutorialRequest>)
    ensures multiset(r) == multiset(s)
    ensures ByPopularity(r)
  {
    if s == [] then []
    else
      assert s == [s[0]] + s[1..];
      InsertByVotes(s[0], SortByPopularity(s[1..]))
  }

  function RequestFilter(rs: seq<TutorialRequest>, query: string, category: Option<string>): seq<TutorialRequest>
  {
    Filter(rs, (t: TutorialRequest) => MatchesRequest(t, query, category))
  }

  /** The listing under "popular": exactly the matching requests, most-voted first. */
  function FilteredRequests(rs: seq<TutorialRequest>, query: string, category: Option<string>): (r: seq<TutorialRequest>)
    ensures multiset(r) == multiset(RequestFilter(rs, query, category))
    ensures ByPopularity(r)
    ensures forall i :: 0 <= i < |r| ==> r[i] in rs && MatchesRequest(r[i], query, category)
    ensures forall i :: 0 <= i < |rs| && MatchesRequest(rs[i], query, category) ==> rs[i] in r
  {
    var kept := RequestFilter(rs, query, category);
    var r := SortByPopularity(kept);
    SameMultisetSameMembers(r, kept);
    r
  }

  /** With an empty search and no category, the listing is every request, reordered. */
  lemma UnfilteredRequests(rs: seq<TutorialRequest>)
    ensures multiset(FilteredRequests(rs, "", None)) == multiset(rs)
  {
    forall i | 0 <= i < |rs| ensures MatchesRequest(rs[i], "", None) {
      EmptyQueryMatches(rs[i].title);
    }
    FilterKeepsAll(rs, (t: TutorialRequest) => MatchesRequest(t, "", None));
    assert RequestFilter(rs, "", None) == rs;
  }

  // ---------------------------------------------------------------------------------------------
  // Creating a request

  /** The row `handleCreateRequest` inserts. */
  datatype RequestInsert = RequestInsert(userId: string, title: string, description: string, category: string)

  /** No insert without a user or with a blank title or description; otherwise the trimmed values. */
  function CreateRequestPayload(user: Option<User>, title: string, description: string, category: string): (p: Option<RequestInsert>)
    ensures p.None? <==> user.None? || IsBlank(title) || IsBlank(description)
    ensures p.Some? ==> p.value == RequestInsert(user.value.id, Trim(title), Trim(description), category)
    ensures p.Some? ==> p.value.title != [] && p.value.description != []
  {
    if user.None? || IsBlank(title) || IsBlank(description) then None
    else Some(RequestInsert(user.value.id, Trim(title), Trim(description), category))
  }

  /** The "new request" form. */
  class NewRequestForm {
    var title: string
    var description: string
    var category: string
    var isCreating: bool

    constructor ()
      ensures title == "" && description == "" && category == Categories[0] && !isCreating
    {
      title, description, category, isCreating := "", "", Categories[0], false;
    }

    /** Submit: compute the insert; when there is one and it succeeds, clear and close the form.
        `insertSucceeds` is the outcome of the remote insert. */
    method Submit(user: Option<User>, insertSucceeds: bool) returns (insert: Option<RequestInsert>)
      modifies this
      ensures insert == CreateRequestPayload(user, old(title), old(description), old(category))
      ensures insert.Some? && insertSucceeds ==>
                title == "" && description == "" && category == Categories[0] && !isCreating
      ensures !(insert.Some? && insertSucceeds) ==>
                title == old(title) && description == old(description) && category == old(category)
                && isCreating == old(isCreating)
    {
      insert := CreateRequestPayload(user, title, description, category);
      if insert.Some? && insertSucceeds {
        title, description, category, isCreating := "", "", Categories[0], false;
      }
    }
  }
}
