/** The vote handler `POST /api/match/vote` (app/api/match/vote/route.ts):
    the tables it reads and writes, modelled as one store object, and the
    handler as one sequential step over it. */
module VoteRoute {
  import opened Optional
  import opened Elo
  import Text

  type PhotoId = string
  type Tag = string

  /** The columns of a `photos` row the handler selects. `tags` may be null. */
  datatype Photo = Photo(score: int, wins: int, losses: int, matches: int, tags: Option<seq<Tag>>)

  /** A `votes` row; `voter` is null for an anonymous vote. */
  datatype Vote = Vote(id: string, winner: PhotoId, loser: PhotoId, voter: Option<string>)

  datatype Reason = Win | Loss

  /** A `transactions` row: one per photo per vote. */
  datatype Transaction = Transaction(photo: PhotoId, vote: string, delta: int,
                                     previous: int, newScore: int, reason: Reason)

  /** A `photo_tag_stats` row, keyed by (photo id, tag). */
  datatype TagStat = TagStat(score: int, wins: int, losses: int, matches: int)

  /** The request body: parsed JSON with possibly absent members, or a body
      that `request.json()` rejects. */
  datatype Body =
    | Json(matchId: Option<string>, winnerId: Option<string>, loserId: Option<string>)
    | Unparsable(message: string)

  /** What the database answers to the `votes` insert. */
  datatype VoteInsert = Inserted(voteId: string) | InsertFailed(message: string)

  /** The JSON response: the success payload, or an error with its HTTP status. */
  datatype Reply = Success(pointsGained: int, winnerScore: int, loserScore: int)
                 | Failure(status: int, message: string)

  /** JavaScript truthiness of an id taken from the body. */
  predicate Present(id: Option<string>) {
    id.Some? && id.value != ""
  }

  /** `tags || []`. */
  function TagsOf(p: Photo): seq<Tag> {
    if p.tags.Some? then p.tags.value else []
  }

  /** Number of rows `.in('id', [w, l])` returns. */
  function RowsFetched(photos: map<PhotoId, Photo>, w: PhotoId, l: PhotoId): (n: nat)
    ensures n <= 2
    ensures w == l ==> n <= 1
  {
    var s := set x | x in {w, l} && x in photos;
    var sw: set<PhotoId> := if w in photos then {w} else {};
    var sl: set<PhotoId> := if l in photos then {l} else {};
    assert s == sw + sl;
    assert w == l ==> sw + sl == sw;
    |s|
  }

  /** Exactly two rows come back iff the ids differ and both photos exist, so
      the later `find` for each id always succeeds. */
  lemma TwoRowsIff(photos: map<PhotoId, Photo>, w: PhotoId, l: PhotoId)
    ensures RowsFetched(photos, w, l) == 2 <==> w != l && w in photos && l in photos
  {
    var s := set x | x in {w, l} && x in photos;
    if w == l {
      if w in photos { assert s == {w}; } else { assert s == {}; }
    } else if w in photos && l in photos {
      assert s == {w, l};
    } else if w in photos {
      assert s == {w};
    } else if l in photos {
      assert s == {l};
    } else {
      assert s == {};
    }
  }

  /** `winnerTags.filter(tag => loserTags.includes(tag))`. */
  function MutualTags(winnerTags: seq<Tag>, loserTags: seq<Tag>): (r: seq<Tag>)
    ensures forall t :: t in r <==> t in winnerTags && t in loserTags
    ensures Text.IsSubsequence(r, winnerTags)
    ensures Text.NoDuplicates(winnerTags) ==> Text.NoDuplicates(r)
  {
    if winnerTags == [] then []
    else
      var rest := MutualTags(winnerTags[1..], loserTags);
      assert forall t :: t in winnerTags[1..] ==> t in winnerTags;
      if winnerTags[0] in loserTags then [winnerTags[0]] + rest else rest
  }

  /** The winner's photo row after the vote. */
  function Won(p: Photo, d: int): (r: Photo)
    ensures r.score - p.score == d
    ensures r.wins == p.wins + 1 && r.losses == p.losses && r.matches == p.matches + 1
    ensures r.tags == p.tags
  {
    p.(score := p.score + d, wins := p.wins + 1, matches := p.matches + 1)
  }

  /** The loser's photo row after the vote. */
  function Lost(p: Photo, d: int): (r: Photo)
    ensures p.score - r.score == d
    ensures r.losses == p.losses + 1 && r.wins == p.wins && r.matches == p.matches + 1
    ensures r.tags == p.tags
  {
    p.(score := p.score - d, losses := p.losses + 1, matches := p.matches + 1)
  }

  /** Both counter updates keep `matches == wins + losses`. */
  lemma CountersBalanced(p: Photo, d: int)
    requires p.matches == p.wins + p.losses
    ensures Won(p, d).matches == Won(p, d).wins + Won(p, d).losses
    ensures Lost(p, d).matches == Lost(p, d).wins + Lost(p, d).losses
  {
  }

  // ---------------------------------------------------------------------
  // Per-tag statistics.

  /** `stat?.score || 1000`: a missing row, or a stored score of 0, reads as 1000. */
  function StatScore(m: map<(PhotoId, Tag), TagStat>, key: (PhotoId, Tag)): (s: int)
    ensures s != 0
    ensures key !in m ==> s == DefaultScore
    ensures key in m ==> s == (if m[key].score == 0 then DefaultScore else m[key].score)
  {
    if key in m && m[key].score != 0 then m[key].score else DefaultScore
  }

  /** `stat?.wins || 0` and the like for the counters: a missing row reads
      as 0, a stored 0 stays 0. */
  function StatWins(m: map<(PhotoId, Tag), TagStat>, key: (PhotoId, Tag)): (n: int)
    ensures key !in m ==> n == 0
    ensures key in m ==> n == m[key].wins
  {
    if key in m then m[key].wins else 0
  }

  function StatLosses(m: map<(PhotoId, Tag), TagStat>, key: (PhotoId, Tag)): (n: int)
    ensures key !in m ==> n == 0
    ensures key in m ==> n == m[key].losses
  {
    if key in m then m[key].losses else 0
  }

  function StatMatches(m: map<(PhotoId, Tag), TagStat>, key: (PhotoId, Tag)): (n: int)
    ensures key !in m ==> n == 0
    ensures key in m ==> n == m[key].matches
  {
    if key in m then m[key].matches else 0
  }

  /** The loser's `losses` column as the handler writes it: it is computed
      from `winnerTagStat.losses`, a column the query never selects, so the
      value is always `(undefined || 0) + 1`. */
  function LoserTagLossesAsWritten(): (n: int)
    ensures n == 1
  {
    0 + 1
  }

  /** The two upserts for one mutual tag. Columns an upsert does not name keep
      their stored value, or 0 on a row the upsert creates. */
  function ApplyTag(m: map<(PhotoId, Tag), TagStat>, w: PhotoId, l: PhotoId, tag: Tag,
                    curve: (int, int) -> int): (r: map<(PhotoId, Tag), TagStat>)
    requires IsDeltaCurve(curve) && w != l
    ensures r.Keys == m.Keys + {(w, tag), (l, tag)}
    ensures forall key :: key in m && key != (w, tag) && key != (l, tag) ==> r[key] == m[key]
    ensures var d := AppliedDelta(curve, StatScore(m, (w, tag)), StatScore(m, (l, tag)));
            && r[(w, tag)] == TagStat(StatScore(m, (w, tag)) + d, StatWins(m, (w, tag)) + 1,
                                      StatLosses(m, (w, tag)), StatMatches(m, (w, tag)) + 1)
            && r[(l, tag)] == TagStat(StatScore(m, (l, tag)) - d, StatWins(m, (l, tag)),
                                      LoserTagLossesAsWritten(), StatMatches(m, (l, tag)) + 1)
  {
    var wKey, lKey := (w, tag), (l, tag);
    var ws, ls := StatScore(m, wKey), StatScore(m, lKey);
    var d := AppliedDelta(curve, ws, ls);
    m[wKey := TagStat(ws + d, StatWins(m, wKey) + 1, StatLosses(m, wKey), StatMatches(m, wKey) + 1)]
     [lKey := TagStat(ls - d, StatWins(m, lKey), LoserTagLossesAsWritten(), StatMatches(m, lKey) + 1)]
  }

  /** The upserts for every tag of `tags`, in order. */
  function ApplyTags(m: map<(PhotoId, Tag), TagStat>, w: PhotoId, l: PhotoId, tags: seq<Tag>,
                     curve: (int, int) -> int): (r: map<(PhotoId, Tag), TagStat>)
    requires IsDeltaCurve(curve) && w != l
    ensures m.Keys <= r.Keys
    ensures forall t :: t in tags ==> (w, t) in r && (l, t) in r
  {
    if tags == [] then m
    else ApplyTag(ApplyTags(m, w, l, tags[..|tags| - 1], curve), w, l, tags[|tags| - 1], curve)
  }

  /** One more tag of the same list is one more upsert. */
  lemma ApplyTagsPrefix(m: map<(PhotoId, Tag), TagStat>, w: PhotoId, l: PhotoId, tags: seq<Tag>, i: nat,
                        curve: (int, int) -> int)
    requires IsDeltaCurve(curve) && w != l && i < |tags|
    ensures ApplyTags(m, w, l, tags[..i + 1], curve)
            == ApplyTag(ApplyTags(m, w, l, tags[..i], curve), w, l, tags[i], curve)
  {
    assert tags[..i + 1][..i] == tags[..i];
  }

  /** Rows of other photos, and rows of tags that are not processed, are untouched. */
  lemma {:induction false} ApplyTagsFrame(m: map<(PhotoId, Tag), TagStat>, w: PhotoId, l: PhotoId,
                                          tags: seq<Tag>, curve: (int, int) -> int, key: (PhotoId, Tag))
    requires IsDeltaCurve(curve) && w != l
    requires (key.0 != w && key.0 != l) || key.1 !in tags
    ensures key in ApplyTags(m, w, l, tags, curve) <==> key in m
    ensures key in m ==> ApplyTags(m, w, l, tags, curve)[key] == m[key]
  {
    if tags != [] {
      var init := tags[..|tags| - 1];
      assert key.1 !in tags ==> key.1 !in init;
      ApplyTagsFrame(m, w, l, init, curve, key);
    }
  }

  /** The rows `ApplyTags` may create: the two photos' rows for the given tags. */
  lemma {:induction false} ApplyTagsKeys(m: map<(PhotoId, Tag), TagStat>, w: PhotoId, l: PhotoId,
                                         tags: seq<Tag>, curve: (int, int) -> int)
    requires IsDeltaCurve(curve) && w != l
    ensures forall key :: key in ApplyTags(m, w, l, tags, curve) <==>
              key in m || ((key.0 == w || key.0 == l) && key.1 in tags)
  {
    if tags != [] {
      ApplyTagsKeys(m, w, l, tags[..|tags| - 1], curve);
      assert forall t :: t in tags <==> t in tags[..|tags| - 1] || t == tags[|tags| - 1];
    }
  }

  /** For a duplicate-free tag list, each processed tag changes each of the two
      photos' rows exactly once: here, the match counters grow by one. */
  lemma {:induction false} ApplyTagsMatches(m: map<(PhotoId, Tag), TagStat>, w: PhotoId, l: PhotoId,
                                            tags: seq<Tag>, curve: (int, int) -> int, key: (PhotoId, Tag))
    requires IsDeltaCurve(curve) && w != l && Text.NoDuplicates(tags)
    requires (key.0 == w || key.0 == l) && key.1 in tags
    ensures key in ApplyTags(m, w, l, tags, curve)
    ensures ApplyTags(m, w, l, tags, curve)[key].matches == StatMatches(m, key) + 1
  {
    var init, last := tags[..|tags| - 1], tags[|tags| - 1];
    if key.1 == last {
      assert forall k :: 0 <= k < |init| ==> init[k] == tags[k];
      assert last !in init;
      ApplyTagsFrame(m, w, l, init, curve, key);
    } else {
      assert key.1 in init;
      ApplyTagsMatches(m, w, l, init, curve, key);
    }
  }

  /** Each processed tag moves the winner's tag score up and the loser's down
      by the same clamped tag delta. */
  lemma TagRowsAfterOneTag(m: map<(PhotoId, Tag), TagStat>, w: PhotoId, l: PhotoId, tag: Tag,
                           curve: (int, int) -> int)
    requires IsDeltaCurve(curve) && w != l
    ensures var r := ApplyTag(m, w, l, tag, curve);
            && 1 <= r[(w, tag)].score - StatScore(m, (w, tag)) <= K
            && r[(w, tag)].score - StatScore(m, (w, tag)) == StatScore(m, (l, tag)) - r[(l, tag)].score
            && r[(l, tag)].losses == 1
  {
  }

  /** The defect: a loser whose row already counted losses has them reset to 1. */
  lemma LoserTagLossesReset()
    ensures var m := map[("b", "t") := TagStat(990, 0, 3, 3)];
            ApplyTag(m, "a", "b", "t", TableDelta)[("b", "t")].losses == 1 != m[("b", "t")].losses + 1
  {
    TableDeltaIsCurve();
  }

  /** The intended loser row: its own previous `losses` plus one. */
  function LoserTagStatIntended(m: map<(PhotoId, Tag), TagStat>, l: PhotoId, tag: Tag, d: int): (r: TagStat)
    ensures r.losses == StatLosses(m, (l, tag)) + 1
    ensures r.matches == StatMatches(m, (l, tag)) + 1 && r.wins == StatWins(m, (l, tag))
    ensures StatScore(m, (l, tag)) - r.score == d
  {
    TagStat(StatScore(m, (l, tag)) - d, StatWins(m, (l, tag)),
            StatLosses(m, (l, tag)) + 1, StatMatches(m, (l, tag)) + 1)
  }

  /** With the intended row, a tag row that balanced before still balances. */
  lemma IntendedLoserRowBalanced(m: map<(PhotoId, Tag), TagStat>, l: PhotoId, tag: Tag, d: int)
    requires (l, tag) in m ==> m[(l, tag)].matches == m[(l, tag)].wins + m[(l, tag)].losses
    ensures var r := LoserTagStatIntended(m, l, tag, d); r.matches == r.wins + r.losses
  {
  }

  /** The tag rows of a photo need not add up to its match count: a first
      vote between two photos that share two tags counts a match on both of
      the winner's tag rows, while the photo itself has played once. */
  lemma TagMatchesExceedPhotoMatches(photos: map<PhotoId, Photo>, w: PhotoId, l: PhotoId,
                                     x: Tag, y: Tag, d: int, curve: (int, int) -> int)
    requires IsDeltaCurve(curve) && w != l && x != y
    requires w in photos && l in photos && photos[w].matches == 0
    requires TagsOf(photos[w]) == [x, y] && TagsOf(photos[l]) == [x, y]
    ensures var stats := ApplyTags(map[], w, l, MutualTags(TagsOf(photos[w]), TagsOf(photos[l])), curve);
            && (w, x) in stats && (w, y) in stats
            && stats[(w, x)].matches + stats[(w, y)].matches == 2
            && VotedPhotos(photos, w, l, d)[w].matches == 1
  {
    var mutual := MutualTags(TagsOf(photos[w]), TagsOf(photos[l]));
    assert [x, y][1..] == [y] && [y][1..] == [];
    assert MutualTags([y], [x, y]) == [y] + MutualTags([], [x, y]) == [y];
    assert mutual == [x, y];
    ApplyTagsMatches(map[], w, l, mutual, curve, (w, x));
    ApplyTagsMatches(map[], w, l, mutual, curve, (w, y));
  }

  // ---------------------------------------------------------------------
  // The ledger.

  /** The score recorded by the last transaction of photo `p`, if any. */
  function LastRecordedScore(txs: seq<Transaction>, p: PhotoId): Option<int> {
    if txs == [] then None
    else if txs[|txs| - 1].photo == p then Some(txs[|txs| - 1].newScore)
    else LastRecordedScore(txs[..|txs| - 1], p)
  }

  lemma LastRecordedAppend(txs: seq<Transaction>, a: Transaction, b: Transaction, p: PhotoId)
    ensures LastRecordedScore(txs + [a, b], p) ==
            if b.photo == p then Some(b.newScore)
            else if a.photo == p then Some(a.newScore)
            else LastRecordedScore(txs, p)
  {
    assert (txs + [a, b])[..|txs| + 1] == txs + [a];
    assert (txs + [a])[..|txs|] == txs;
  }

  /** Every photo's counters are non-negative and balance, and its tag list
      has no duplicates. */
  ghost predicate PhotosBalanced(photos: map<PhotoId, Photo>) {
    forall p :: p in photos ==>
      && photos[p].wins >= 0 && photos[p].losses >= 0
      && photos[p].matches == photos[p].wins + photos[p].losses
      && Text.NoDuplicates(TagsOf(photos[p]))
  }

  /** Tag rows exist only for tags their photo carries and never count more
      matches than the photo. */
  ghost predicate TagRowsWithin(photos: map<PhotoId, Photo>, stats: map<(PhotoId, Tag), TagStat>) {
    forall key :: key in stats ==>
      && key.0 in photos && key.1 in TagsOf(photos[key.0])
      && stats[key].matches <= photos[key.0].matches
  }

  /** Every transaction moves its score by its delta. */
  ghost predicate LedgerSound(txs: seq<Transaction>) {
    forall k :: 0 <= k < |txs| ==> txs[k].newScore == txs[k].previous + txs[k].delta
  }

  /** The last transaction of each photo records its current score. */
  ghost predicate LedgerMatchesScores(photos: map<PhotoId, Photo>, txs: seq<Transaction>) {
    forall p :: p in photos && LastRecordedScore(txs, p).Some? ==>
      LastRecordedScore(txs, p).value == photos[p].score
  }

  /** What the handler keeps true of the tables. */
  ghost predicate ConsistentTables(photos: map<PhotoId, Photo>, txs: seq<Transaction>,
                                   stats: map<(PhotoId, Tag), TagStat>)
  {
    PhotosBalanced(photos) && TagRowsWithin(photos, stats) && LedgerSound(txs)
    && LedgerMatchesScores(photos, txs)
  }

  /** The photo rows a successful vote writes. */
  function VotedPhotos(photos: map<PhotoId, Photo>, w: PhotoId, l: PhotoId, d: int): (r: map<PhotoId, Photo>)
    requires w in photos && l in photos
    ensures r.Keys == photos.Keys
    ensures w != l ==> r[w] == Won(photos[w], d) && r[l] == Lost(photos[l], d)
    ensures forall p :: p in photos && p != w && p != l ==> r[p] == photos[p]
  {
    photos[w := Won(photos[w], d)][l := Lost(photos[l], d)]
  }

  /** The two transactions a successful vote appends. */
  function VoteTransactions(photos: map<PhotoId, Photo>, w: PhotoId, l: PhotoId, d: int,
                            voteId: string): (r: seq<Transaction>)
    requires w in photos && l in photos
    ensures |r| == 2 && r[0].photo == w && r[1].photo == l
    ensures r[0].vote == voteId && r[1].vote == voteId
    ensures r[0].delta == d && r[1].delta == -d
    ensures r[0].previous == photos[w].score && r[1].previous == photos[l].score
    ensures forall k :: 0 <= k < 2 ==> r[k].newScore == r[k].previous + r[k].delta
    ensures r[0].reason == Win && r[1].reason == Loss
  {
    [Transaction(w, voteId, d, photos[w].score, photos[w].score + d, Win),
     Transaction(l, voteId, -d, photos[l].score, photos[l].score - d, Loss)]
  }

  lemma VoteKeepsPhotosBalanced(photos: map<PhotoId, Photo>, w: PhotoId, l: PhotoId, d: int)
    requires w in photos && l in photos && PhotosBalanced(photos)
    ensures PhotosBalanced(VotedPhotos(photos, w, l, d))
  {
  }

  /** One row after a vote: still for a tag its photo carries, and still
      counting no more matches than the photo. */
  lemma VoteKeepsTagRow(photos: map<PhotoId, Photo>, stats: map<(PhotoId, Tag), TagStat>,
                        w: PhotoId, l: PhotoId, d: int, curve: (int, int) -> int, key: (PhotoId, Tag))
    requires IsDeltaCurve(curve) && w != l && w in photos && l in photos
    requires PhotosBalanced(photos) && TagRowsWithin(photos, stats)
    requires key in ApplyTags(stats, w, l, MutualTags(TagsOf(photos[w]), TagsOf(photos[l])), curve)
    ensures key.0 in VotedPhotos(photos, w, l, d)
    ensures key.1 in TagsOf(VotedPhotos(photos, w, l, d)[key.0])
    ensures ApplyTags(stats, w, l, MutualTags(TagsOf(photos[w]), TagsOf(photos[l])), curve)[key].matches
            <= VotedPhotos(photos, w, l, d)[key.0].matches
  {
    var mutual := MutualTags(TagsOf(photos[w]), TagsOf(photos[l]));
    ApplyTagsKeys(stats, w, l, mutual, curve);
    if (key.0 == w || key.0 == l) && key.1 in mutual {
      ApplyTagsMatches(stats, w, l, mutual, curve, key);
    } else {
      ApplyTagsFrame(stats, w, l, mutual, curve, key);
    }
  }

  /** Tag rows stay within their photos' tags and match counts. */
  lemma VoteKeepsTagRowsWithin(photos: map<PhotoId, Photo>, stats: map<(PhotoId, Tag), TagStat>,
                               w: PhotoId, l: PhotoId, d: int, curve: (int, int) -> int)
    requires IsDeltaCurve(curve) && w != l && w in photos && l in photos
    requires PhotosBalanced(photos) && TagRowsWithin(photos, stats)
    ensures TagRowsWithin(VotedPhotos(photos, w, l, d),
                          ApplyTags(stats, w, l, MutualTags(TagsOf(photos[w]), TagsOf(photos[l])), curve))
  {
    var stats' := ApplyTags(stats, w, l, MutualTags(TagsOf(photos[w]), TagsOf(photos[l])), curve);
    forall key | key in stats'
      ensures key.0 in VotedPhotos(photos, w, l, d)
      ensures key.1 in TagsOf(VotedPhotos(photos, w, l, d)[key.0])
      ensures stats'[key].matches <= VotedPhotos(photos, w, l, d)[key.0].matches
    {
      VoteKeepsTagRow(photos, stats, w, l, d, curve, key);
    }
  }

  /** The new transactions move each score by its delta, and the ledger still
      ends on each photo's current score. */
  lemma VoteKeepsLedger(photos: map<PhotoId, Photo>, txs: seq<Transaction>, w: PhotoId, l: PhotoId,
                        d: int, voteId: string)
    requires w != l && w in photos && l in photos
    requires LedgerSound(txs) && LedgerMatchesScores(photos, txs)
    ensures LedgerSound(txs + VoteTransactions(photos, w, l, d, voteId))
    ensures LedgerMatchesScores(VotedPhotos(photos, w, l, d), txs + VoteTransactions(photos, w, l, d, voteId))
  {
    var added := VoteTransactions(photos, w, l, d, voteId);
    var txs' := txs + added;
    forall k | 0 <= k < |txs'| ensures txs'[k].newScore == txs'[k].previous + txs'[k].delta {
      if k < |txs| { assert txs'[k] == txs[k]; }
    }
    var photos' := VotedPhotos(photos, w, l, d);
    forall p | p in photos' && LastRecordedScore(txs', p).Some?
      ensures LastRecordedScore(txs', p).value == photos'[p].score
    {
      LastRecordedAppend(txs, added[0], added[1], p);
    }
  }

  /** A successful vote keeps the tables consistent. */
  lemma VotePreservesConsistency(photos: map<PhotoId, Photo>, txs: seq<Transaction>,
                                 stats: map<(PhotoId, Tag), TagStat>, w: PhotoId, l: PhotoId,
                                 d: int, voteId: string, curve: (int, int) -> int)
    requires IsDeltaCurve(curve) && w != l && w in photos && l in photos
    requires ConsistentTables(photos, txs, stats)
    ensures ConsistentTables(VotedPhotos(photos, w, l, d), txs + VoteTransactions(photos, w, l, d, voteId),
                             ApplyTags(stats, w, l, MutualTags(TagsOf(photos[w]), TagsOf(photos[l])), curve))
  {
    VoteKeepsPhotosBalanced(photos, w, l, d);
    VoteKeepsTagRowsWithin(photos, stats, w, l, d, curve);
    VoteKeepsLedger(photos, txs, w, l, d, voteId);
  }

  /** The tables as the handler sees them. */
  class VoteStore {
    var photos: map<PhotoId, Photo>
    var votes: seq<Vote>
    var transactions: seq<Transaction>
    var tagStats: map<(PhotoId, Tag), TagStat>

    ghost predicate Consistent()
      reads this
    {
      ConsistentTables(photos, transactions, tagStats)
    }

    constructor (initial: map<PhotoId, Photo>)
      ensures photos == initial && votes == [] && transactions == [] && tagStats == map[]
    {
      photos, votes, transactions, tagStats := initial, [], [], map[];
    }

    /** `POST /api/match/vote`, with the database's answers to the photo
        query (`fetchFailed`) and to the vote insert as inputs, the session's
        user as `voter` and `curve` for the rounded expected-score term. */
    method RecordVote(body: Body, fetchFailed: bool, voter: Option<string>, insert: VoteInsert,
                      curve: (int, int) -> int) returns (reply: Reply)
      requires IsDeltaCurve(curve)
      modifies this
      // A body that does not parse ends in the catch-all 500.
      ensures body.Unparsable? ==> reply == Failure(500, body.message)
      // A missing id is a 400.
      ensures body.Json? && (!Present(body.winnerId) || !Present(body.loserId)) ==>
                reply == Failure(400, "Missing winner_id or loser_id")
      // Unless the query returns exactly two rows, a 404 (so w == l is refused).
      ensures body.Json? && Present(body.winnerId) && Present(body.loserId)
              && (fetchFailed || RowsFetched(old(photos), body.winnerId.value, body.loserId.value) != 2)
              ==> reply == Failure(404, "Could not fetch photos")
      // A failed vote insert is a 500 that carries the database's message.
      ensures body.Json? && Present(body.winnerId) && Present(body.loserId) && !fetchFailed
              && RowsFetched(old(photos), body.winnerId.value, body.loserId.value) == 2
              && insert.InsertFailed?
              ==> reply == Failure(500, "Failed to record vote: " + insert.message)
      // Every failure writes nothing.
      ensures reply.Failure? ==>
                photos == old(photos) && votes == old(votes) && transactions == old(transactions)
                && tagStats == old(tagStats)
      // Success exactly when every check passes.
      ensures reply.Success? <==>
                body.Json? && Present(body.winnerId) && Present(body.loserId) && !fetchFailed
                && RowsFetched(old(photos), body.winnerId.value, body.loserId.value) == 2
                && insert.Inserted?
      ensures reply.Success? ==>
                var w, l := body.winnerId.value, body.loserId.value;
                && w != l && w in old(photos) && l in old(photos)
                && var winner, loser := old(photos)[w], old(photos)[l];
                   var d := AppliedDelta(curve, winner.score, loser.score);
                   && reply == Success(d, winner.score + d, loser.score - d)
                   && photos == VotedPhotos(old(photos), w, l, d)
                   && votes == old(votes) + [Vote(insert.voteId, w, l, voter)]
                   && transactions == old(transactions) + VoteTransactions(old(photos), w, l, d, insert.voteId)
                   && tagStats == ApplyTags(old(tagStats), w, l, MutualTags(TagsOf(winner), TagsOf(loser)), curve)
      ensures old(Consistent()) ==> Consistent()
    {
      if body.Unparsable? {
        return Failure(500, body.message);
      }
      if !Present(body.winnerId) || !Present(body.loserId) {
        return Failure(400, "Missing winner_id or loser_id");
      }
      var w, l := body.winnerId.value, body.loserId.value;
      if fetchFailed || RowsFetched(photos, w, l) != 2 {
        return Failure(404, "Could not fetch photos");
      }
      TwoRowsIff(photos, w, l);
      if insert.InsertFailed? {
        return Failure(500, "Failed to record vote: " + insert.message);
      }
      reply := ApplyVote(w, l, insert.voteId, voter, curve);
    }

    /** The writes of a vote that passed every check: the vote row, both
        photo rows, the two ledger entries and the per-tag upserts. */
    method ApplyVote(w: PhotoId, l: PhotoId, voteId: string, voter: Option<string>,
                     curve: (int, int) -> int) returns (reply: Reply)
      requires IsDeltaCurve(curve) && w != l && w in photos && l in photos
      modifies this
      ensures var winner, loser := old(photos)[w], old(photos)[l];
              var d := AppliedDelta(curve, winner.score, loser.score);
              && reply == Success(d, winner.score + d, loser.score - d)
              && photos == VotedPhotos(old(photos), w, l, d)
              && votes == old(votes) + [Vote(voteId, w, l, voter)]
              && transactions == old(transactions) + VoteTransactions(old(photos), w, l, d, voteId)
              && tagStats == ApplyTags(old(tagStats), w, l, MutualTags(TagsOf(winner), TagsOf(loser)), curve)
      ensures old(Consistent()) ==> Consistent()
    {
      var winner, loser := photos[w], photos[l];
      var d := AppliedDelta(curve, winner.score, loser.score);
      var mutual := MutualTags(TagsOf(winner), TagsOf(loser));
      if Consistent() {
        VotePreservesConsistency(photos, transactions, tagStats, w, l, d, voteId, curve);
      }
      votes := votes + [Vote(voteId, w, l, voter)];
      // The winner's and the loser's ledger entries, then both score updates.
      transactions := transactions + VoteTransactions(photos, w, l, d, voteId);
      photos := VotedPhotos(photos, w, l, d);
      UpsertTagStats(w, l, mutual, curve);
      reply := Success(d, winner.score + d, loser.score - d);
    }

    /** The per-tag upserts, one mutual tag after the other. */
    method UpsertTagStats(w: PhotoId, l: PhotoId, mutual: seq<Tag>, curve: (int, int) -> int)
      requires IsDeltaCurve(curve) && w != l
      modifies this`tagStats
      ensures tagStats == ApplyTags(old(tagStats), w, l, mutual, curve)
    {
      var stats := tagStats;
      var i := 0;
      while i < |mutual|
        invariant 0 <= i <= |mutual|
        invariant stats == ApplyTags(old(tagStats), w, l, mutual[..i], curve)
      {
        ApplyTagsPrefix(old(tagStats), w, l, mutual, i, curve);
        stats := ApplyTag(stats, w, l, mutual[i], curve);
        i := i + 1;
      }
      assert mutual[..i] == mutual;
      tagStats := stats;
    }
  }
}
