/**
 * The `Leaderboard` component's logic: turning the fetched JSON into
 * entries, the load's outcome on the component state, and the helpers
 * that format a row.
 */
module Leaderboard {
  import opened Wrappers
  import opened Text

  /** `LeaderboardEntry`. */
  datatype Entry = Entry(rank: int, player: string, wallet: string, score: int)

  /** One array element's fields as served; an absent or `null` field is `None`. */
  datatype RawEntry = RawEntry(
    rank: Option<int>,
    username: Option<string>,
    walletAddress: Option<string>,
    score: Option<int>)

  /**
   * An element of the served array. Reading a field of a `null` element
   * throws; any other non-object element reads as a record without fields.
   */
  datatype Element = Record(fields: RawEntry) | NullElement

  /** The parsed body: an array, or anything else. */
  datatype Json = JArray(elements: seq<Element>) | JOther

  datatype Body = Unparsable | Parsed(data: Json)

  /** What `fetch("/api/leaderboard")` gives: a thrown request, or a response with its status flag and body. */
  datatype FetchResult = NetworkError | Response(ok: bool, body: Body)

  const Unknown: string := "Unknown"
  const LoadError: string := "Unable to load leaderboard"

  /** One pushed entry: each absent field takes its default. */
  function NormalizeEntry(raw: RawEntry): (e: Entry)
    ensures e.rank == (if raw.rank.Some? then raw.rank.value else 1)
    ensures e.player == (if raw.username.Some? then raw.username.value else Unknown)
    ensures e.wallet == (if raw.walletAddress.Some? then raw.walletAddress.value else Unknown)
    ensures e.score == (if raw.score.Some? then raw.score.value else 0)
  {
    Entry(raw.rank.GetOr(1), raw.username.GetOr(Unknown), raw.walletAddress.GetOr(Unknown), raw.score.GetOr(0))
  }

  /** The entries of an array, in order, or `None` when some element is `null` and the `forEach` throws. */
  function Normalized(elements: seq<Element>): Option<seq<Entry>>
    decreases |elements|
  {
    if elements == [] then Some([])
    else
      match Normalized(elements[..|elements| - 1])
      case None => None
      case Some(init) =>
        match elements[|elements| - 1]
        case NullElement => None
        case Record(raw) => Some(init + [NormalizeEntry(raw)])
  }

  /** Normalising succeeds exactly when no element is `null`, and then keeps one entry per element, in order. */
  lemma {:induction false} NormalizedSpec(elements: seq<Element>)
    ensures Normalized(elements).None? <==> exists j :: 0 <= j < |elements| && elements[j].NullElement?
    ensures Normalized(elements).Some? ==>
              var entries := Normalized(elements).value;
              && |entries| == |elements|
              && forall j :: 0 <= j < |elements| ==> entries[j] == NormalizeEntry(elements[j].fields)
    decreases |elements|
  {
    if elements != [] {
      var init := elements[..|elements| - 1];
      NormalizedSpec(init);
      assert forall j :: 0 <= j < |init| ==> init[j] == elements[j];
    }
  }

  /** The entries the component keeps for a parsed body: none for a non-array. */
  function NormalizedData(data: Json): Option<seq<Entry>> {
    match data
    case JOther => Some([])
    case JArray(elements) => Normalized(elements)
  }

  /** The `if (Array.isArray(data))` block: builds the entries with a loop, one push per element. */
  method NormalizeEntries(data: Json) returns (r: Option<seq<Entry>>)
    ensures r == NormalizedData(data)
    ensures data.JOther? ==> r == Some([])
  {
    if data.JOther? {
      return Some([]);
    }
    var elements := data.elements;
    var entries: seq<Entry> := [];
    var i := 0;
    while i < |elements|
      invariant 0 <= i <= |elements|
      invariant Normalized(elements[..i]) == Some(entries)
    {
      assert elements[..i + 1][..i] == elements[..i];
      match elements[i] {
        case NullElement =>
          assert Normalized(elements[..i + 1]) == None;
          NoneIsSticky(elements, i + 1);
          return None;
        case Record(raw) =>
          entries := entries + [NormalizeEntry(raw)];
      }
      i := i + 1;
    }
    assert elements[..i] == elements;
    r := Some(entries);
  }

  /** Once a prefix fails to normalise, the whole array does. */
  lemma {:induction false} NoneIsSticky(elements: seq<Element>, k: nat)
    requires k <= |elements|
    requires Normalized(elements[..k]) == None
    ensures Normalized(elements) == None
    decreases |elements| - k
  {
    if k < |elements| {
      assert elements[..k + 1][..k] == elements[..k];
      NoneIsSticky(elements, k + 1);
    } else {
      assert elements[..k] == elements;
    }
  }

  /** The entries a load ends with, or `None` when it takes the `catch` branch. */
  function FetchOutcome(resp: FetchResult): Option<seq<Entry>> {
    match resp
    case NetworkError => None
    case Response(ok, body) =>
      if !ok then None
      else match body
        case Unparsable => None
        case Parsed(data) => NormalizedData(data)
  }

  /** A body that is not an array (such as `{data: null}`) loads as an empty board, not an error. */
  lemma NonArrayLoadsEmpty(resp: FetchResult)
    requires resp == Response(true, Parsed(JOther))
    ensures FetchOutcome(resp) == Some([])
  {
  }

  /** `formatAddress`. */
  function FormatAddress(address: string): (r: string)
    ensures r == Unknown <==> address == "" || address == Unknown
    ensures r != Unknown ==> |r| == Min(6, |address|) + 3 + Min(4, |address|)
    ensures r != Unknown ==>
              var k := Min(6, |address|);
              && r[..k] == address[..k]
              && r[k..k + 3] == "..."
              && r[k + 3..] == SliceTail(address, 4)
    ensures |address| >= 10 ==> |r| == 13
  {
    if address == "" || address == Unknown then Unknown
    else
      var r := SliceHead(address, 6) + "..." + SliceTail(address, 4);
      assert r[Min(6, |address|)] == '.' && '.' !in Unknown;
      r
  }

  /** The three medals. */
  const GoldMedal: string := "\U{1F947}"
  const SilverMedal: string := "\U{1F948}"
  const BronzeMedal: string := "\U{1F949}"

  /** `getRankIcon`. */
  function RankIcon(rank: int): (r: string)
    ensures rank == 1 ==> r == GoldMedal
    ensures rank == 2 ==> r == SilverMedal
    ensures rank == 3 ==> r == BronzeMedal
    ensures rank !in {1, 2, 3} ==> |r| >= 2 && r[0] == '#' && r[1..] == IntToDecimal(rank)
  {
    if rank == 1 then GoldMedal
    else if rank == 2 then SilverMedal
    else if rank == 3 then BronzeMedal
    else "#" + IntToDecimal(rank)
  }

  /** Distinct ranks get distinct icons. */
  lemma RankIconInjective(a: int, b: int)
    requires RankIcon(a) == RankIcon(b)
    ensures a == b
  {
    if a !in {1, 2, 3} && b !in {1, 2, 3} {
      assert IntToDecimal(a) == RankIcon(a)[1..] == RankIcon(b)[1..] == IntToDecimal(b);
      IntToDecimalInjective(a, b);
    }
  }

  /** `isCurrentPlayer`: a case-insensitive match against a present player address. */
  function IsCurrentPlayer(address: string, playerAddress: Option<string>): (r: bool)
    ensures !Truthy(playerAddress) ==> !r
    ensures Truthy(playerAddress) ==> (r <==> Lower(address) == Lower(playerAddress.value))
  {
    if Truthy(playerAddress) then Lower(address) == Lower(playerAddress.value) else false
  }

  /** Matching is symmetric. */
  lemma IsCurrentPlayerSymmetric(a: string, b: string)
    ensures IsCurrentPlayer(a, Some(b)) == IsCurrentPlayer(b, Some(a))
  {
  }

  /** Matching ignores the case of the row's address. */
  lemma IsCurrentPlayerIgnoresCase(address: string, playerAddress: Option<string>)
    ensures IsCurrentPlayer(Lower(address), playerAddress) == IsCurrentPlayer(address, playerAddress)
  {
    LowerIdempotent(address);
  }

  const Gold: string := "text-yellow-400"
  const Blue: string := "text-blue-400"
  const Green: string := "text-green-400"
  const Gray: string := "text-gray-400"

  /** `getScoreColor`: the first threshold the score reaches picks the band. */
  function ScoreColor(score: int): (r: string)
    ensures r == Gold <==> score >= 500
    ensures r == Blue <==> 300 <= score < 500
    ensures r == Green <==> 100 <= score < 300
    ensures r == Gray <==> score < 100
  {
    if score >= 500 then Gold
    else if score >= 300 then Blue
    else if score >= 100 then Green
    else Gray
  }

  /** The bands in increasing order. */
  function BandIndex(color: string): nat {
    if color == Gold then 3 else if color == Blue then 2 else if color == Green then 1 else 0
  }

  /** A higher score never falls in a lower band. */
  lemma ScoreColorMonotone(s1: int, s2: int)
    requires s1 <= s2
    ensures BandIndex(ScoreColor(s1)) <= BandIndex(ScoreColor(s2))
  {
  }

  /** The component state `loadLeaderboard` writes. */
  class LeaderboardView {
    var leaderboard: seq<Entry>
    var isLoading: bool
    var error: string

    constructor ()
      ensures leaderboard == [] && !isLoading && error == ""
    {
      leaderboard := [];
      isLoading := false;
      error := "";
    }

    /** The start of `loadLeaderboard`, before the request: loading, error cleared, entries kept. */
    method StartLoad()
      modifies this
      ensures isLoading && error == "" && leaderboard == old(leaderboard)
    {
      isLoading := true;
      error := "";
    }

    /** The rest of `loadLeaderboard`, once the request has settled. */
    method FinishLoad(resp: FetchResult)
      modifies this
      ensures !isLoading
      ensures FetchOutcome(resp).Some? ==> leaderboard == FetchOutcome(resp).value && error == old(error)
      ensures FetchOutcome(resp).None? ==> leaderboard == [] && error == LoadError
    {
      var outcome: Option<seq<Entry>> := None;
      if resp.Response? && resp.ok && resp.body.Parsed? {
        outcome := NormalizeEntries(resp.body.data);
      }
      match outcome {
        case Some(entries) =>
          leaderboard := entries;
        case None =>
          error := LoadError;
          leaderboard := [];
      }
      isLoading := false;
    }

    /** `loadLeaderboard` as a whole. */
    method LoadLeaderboard(resp: FetchResult)
      modifies this
      ensures !isLoading
      ensures FetchOutcome(resp).Some? ==> leaderboard == FetchOutcome(resp).value && error == ""
      ensures FetchOutcome(resp).None? ==> leaderboard == [] && error == LoadError
    {
      StartLoad();
      FinishLoad(resp);
    }
  }
}
