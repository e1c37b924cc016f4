/** The leaderboard (src/components/Leaderboard.tsx): one entry per catalog
    model with its vote count, ranked by votes, most first; demonstration
    counts stand in while nobody has voted. */
module Leaderboard {
  import opened Seqs
  import opened Catalog

  datatype Entry = Entry(id: string, name: string, votes: nat, provider: Provider)

  function VotesOf(e: Entry): nat { e.votes }
  function EntryId(e: Entry): string { e.id }

  /** The counts shown, rank by rank, before anyone has voted. */
  const DEMO_VOTES: seq<nat> := [254, 198, 142, 89, 76, 54, 32, 21, 15]

  /** `[...][idx] || 0`: the demonstration count of the model at a catalog
      position, 0 past the end of the list. */
  function DemoVote(idx: nat): (r: nat)
    ensures idx < |DEMO_VOTES| ==> r == DEMO_VOTES[idx] && r > 0
    ensures idx >= |DEMO_VOTES| ==> r == 0
  {
    if idx < |DEMO_VOTES| then DEMO_VOTES[idx] else 0
  }

  /** `votes[id] || 0`: the stored count, 0 for a model nobody voted for. */
  function VoteOf(votes: map<string, nat>, id: string): (r: nat)
    ensures id in votes ==> r == votes[id]
    ensures id !in votes ==> r == 0
  {
    if id in votes then votes[id] else 0
  }

  /** The unsorted entries built from the stored counts. */
  function Tally(models: seq<AIModel>, votes: map<string, nat>): (r: seq<Entry>)
    ensures |r| == |models|
    ensures forall i :: 0 <= i < |r| ==>
              r[i] == Entry(models[i].id, models[i].name, VoteOf(votes, models[i].id), models[i].provider)
  {
    seq(|models|, i requires 0 <= i < |models| =>
      Entry(models[i].id, models[i].name, VoteOf(votes, models[i].id), models[i].provider))
  }

  /** The unsorted entries built from the demonstration counts. */
  function DemoTally(models: seq<AIModel>): (r: seq<Entry>)
    ensures |r| == |models|
    ensures forall i :: 0 <= i < |r| ==>
              r[i] == Entry(models[i].id, models[i].name, DemoVote(i), models[i].provider)
  {
    seq(|models|, i requires 0 <= i < |models| =>
      Entry(models[i].id, models[i].name, DemoVote(i), models[i].provider))
  }

  predicate NonIncreasing(s: seq<Entry>) {
    forall i, j :: 0 <= i < j < |s| ==> s[i].votes >= s[j].votes
  }

  /** Places `x` before the first entry it does not trail: ahead of every entry
      with as many votes, so that among equal counts earlier entries stay first. */
  function Insert(x: Entry, s: seq<Entry>): (r: seq<Entry>)
  {
    if s == [] then [x]
    else if x.votes >= s[0].votes then [x] + s
    else [s[0]] + Insert(x, s[1..])
  }

  /** `sort((a, b) => b.votes - a.votes)`, a stable sort, modelled as insertion
      of each entry into the sorted rest. */
  function SortByVotes(s: seq<Entry>): (r: seq<Entry>)
  {
    if s == [] then [] else Insert(s[0], SortByVotes(s[1..]))
  }

  lemma {:induction false} InsertPermutes(x: Entry, s: seq<Entry>)
    ensures multiset(Insert(x, s)) == multiset(s) + multiset{x}
  {
    if s != [] && x.votes < s[0].votes {
      InsertPermutes(x, s[1..]);
      assert s == [s[0]] + s[1..];
    }
  }

  lemma {:induction false} InsertKeepsOrder(x: Entry, s: seq<Entry>)
    requires NonIncreasing(s)
    ensures NonIncreasing(Insert(x, s))
  {
    if s != [] && x.votes < s[0].votes {
      InsertKeepsOrder(x, s[1..]);
      InsertPermutes(x, s[1..]);
      var r := Insert(x, s);
      forall i, j | 0 <= i < j < |r| ensures r[i].votes >= r[j].votes {
        if i == 0 {
          assert r[j] in multiset(Insert(x, s[1..]));
          assert r[j] == x || r[j] in s[1..];
        }
      }
    }
  }

  /** Among the entries with any given count, `x` lands first. */
  lemma {:induction false} InsertStable(x: Entry, s: seq<Entry>, v: nat)
    ensures Select(Insert(x, s), VotesOf, v) ==
            (if x.votes == v then [x] else []) + Select(s, VotesOf, v)
  {
    if s != [] && x.votes < s[0].votes {
      InsertStable(x, s[1..], v);
    }
  }

  /** The ranking has the same entries, is ordered by votes, most first, and
      keeps catalog order among entries with the same count. */
  lemma {:induction false} SortByVotesSpec(s: seq<Entry>)
    ensures multiset(SortByVotes(s)) == multiset(s)
    ensures NonIncreasing(SortByVotes(s))
    ensures forall v :: Select(SortByVotes(s), VotesOf, v) == Select(s, VotesOf, v)
  {
    if s != [] {
      SortByVotesSpec(s[1..]);
      InsertPermutes(s[0], SortByVotes(s[1..]));
      InsertKeepsOrder(s[0], SortByVotes(s[1..]));
      assert s == [s[0]] + s[1..];
      forall v ensures Select(SortByVotes(s), VotesOf, v) == Select(s, VotesOf, v) {
        InsertStable(s[0], SortByVotes(s[1..]), v);
      }
    }
  }

  /** A list already ordered by votes is left as it is. */
  lemma {:induction false} SortByVotesSorted(s: seq<Entry>)
    requires NonIncreasing(s)
    ensures SortByVotes(s) == s
  {
    if s != [] {
      SortByVotesSorted(s[1..]);
    }
  }

  /** The rankings shown: the demonstration counts when no vote is stored at
      all, the stored counts otherwise. */
  function Rankings(votes: map<string, nat>): (r: seq<Entry>)
  {
    if |votes| == 0 then SortByVotes(DemoTally(MODELS)) else SortByVotes(Tally(MODELS, votes))
  }

  /** With stored votes, the ranking shows every catalog model once with its
      stored count, most voted first, ties in catalog order. */
  lemma RankingsOfVotes(votes: map<string, nat>)
    requires |votes| > 0
    ensures multiset(Rankings(votes)) == multiset(Tally(MODELS, votes))
    ensures NonIncreasing(Rankings(votes))
    ensures forall v :: Select(Rankings(votes), VotesOf, v) == Select(Tally(MODELS, votes), VotesOf, v)
    ensures |Rankings(votes)| == |MODELS|
  {
    SortByVotesSpec(Tally(MODELS, votes));
    assert |Rankings(votes)| == |multiset(Rankings(votes))|;
  }

  /** Before anyone votes, the demonstration counts fall with the catalog
      position, so the ranking is the catalog in its own order. */
  lemma DemoRankingsInCatalogOrder()
    ensures |Rankings(map[])| == |MODELS|
    ensures forall i :: 0 <= i < |MODELS| ==>
              Rankings(map[])[i] == Entry(MODELS[i].id, MODELS[i].name, DEMO_VOTES[i], MODELS[i].provider)
  {
    var t := DemoTally(MODELS);
    assert NonIncreasing(t) by {
      forall i, j | 0 <= i < j < |t| ensures t[i].votes >= t[j].votes {
        assert t[i].votes == DEMO_VOTES[i] && t[j].votes == DEMO_VOTES[j];
      }
    }
    SortByVotesSorted(t);
  }

  /** The "+N% conversion" figure of the entry at a rank: 12 for the first,
      one less per rank, never below 2. */
  function ConversionFigure(rank: nat): (r: int)
    ensures r >= 2
    ensures rank <= 10 ==> r == 12 - rank
    ensures rank >= 10 ==> r == 2
  {
    if 12 - rank > 2 then 12 - rank else 2
  }
}
