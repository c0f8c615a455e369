// The leaderboard screen of src/components/LeaderboardScreen.tsx: rows from
// the leaderboard route (the profiles of supabase/functions/server/index_old.ts)
// mapped with defaults, a built-in board when the server has nothing, a
// search over names, the medal decorations of the top three ranks and the
// split into podium cards and compact rows.

module LeaderboardView {
  import opened Js
  import JsText
  import KvServer

  /** A board row; the fields keep whatever truthy value the server sent. */
  datatype Entry = Entry(id: string, name: JsValue, photo: JsValue, rightSwipes: JsValue, category: JsValue, rank: JsValue)

  const DefaultPhoto := "https://images.unsplash.com/photo-1655977237812-ee6beb137203?w=400"

  function Mock(id: string, name: string, photo: string, swipes: int, category: string, rank: int): Entry
  {
    Entry(id, Text(name), Text("https://images.unsplash.com/" + photo + "?w=400"), Num(swipes), Text(category), Num(rank))
  }

  /** The built-in board. */
  const MockBoard: seq<Entry> := [
    Mock("1", "Arjun Kumar", "photo-1507003211169-0a1dd7228f2d", 432, "Hip-Hop", 1),
    Mock("2", "Priya Sharma", "photo-1494790108377-be9c29b29330", 398, "Indie", 2),
    Mock("3", "Rahul Singh", "photo-1577434818789-bffe036a0024", 375, "Rock", 3),
    Mock("4", "Ananya Patel", "photo-1524504388940-b1c1722653e1", 324, "Pop", 4),
    Mock("5", "Vikram Shah", "photo-1552374196-c4e7ffc6e126", 289, "EDM", 5),
    Mock("6", "Simran Kaur", "photo-1531123897727-8f129e1688ce", 267, "Punjabi", 6),
    Mock("7", "Rohit Choudhary", "photo-1506794778202-cad84cf45f1d", 245, "Haryanvi", 7),
    Mock("8", "Neha Verma", "photo-1529626455594-4ff0802cfb7e", 221, "Hindi", 8)
  ]

  /** One server profile as a board row: photo, right swipes, category and rank fall back when falsy. */
  function MapRow(p: KvServer.Profile): (e: Entry)
    ensures e.id == p.id && e.name == p.name
    ensures Truthy(p.photo) ==> e.photo == p.photo
    ensures !Truthy(p.photo) ==> e.photo == Text(DefaultPhoto)
    ensures e.rightSwipes == (if Truthy(p.stats.rightSwipes) then p.stats.rightSwipes else Num(0))
    ensures e.category == (if Truthy(p.stats.category) then p.stats.category else Text("Pop"))
    ensures e.rank == (if Truthy(p.stats.rank) then p.stats.rank else Num(0))
  {
    Entry(p.id, p.name, Or(p.photo, Text(DefaultPhoto)), Or(p.stats.rightSwipes, Num(0)),
          Or(p.stats.category, Text("Pop")), Or(p.stats.rank, Num(0)))
  }

  function MapRows(ps: seq<KvServer.Profile>): (es: seq<Entry>)
    ensures |es| == |ps| && forall i :: 0 <= i < |ps| ==> es[i] == MapRow(ps[i])
  {
    seq(|ps|, i requires 0 <= i < |ps| => MapRow(ps[i]))
  }

  /** The board shown after a load: `fetched` is the server's list, None when the request threw. */
  function LoadedBoard(fetched: Option<seq<KvServer.Profile>>): (b: seq<Entry>)
    ensures fetched.Some? && |fetched.value| > 0 ==> b == MapRows(fetched.value)
    ensures fetched.None? || |fetched.value| == 0 ==> b == MockBoard
  {
    if fetched.Some? && |fetched.value| > 0 then MapRows(fetched.value) else MockBoard
  }

  /** The ranks the server writes come through the mapping unchanged: row i is shown with rank i + 1. */
  lemma ServerRanksShown(data: KvServer.Store, category: string)
    ensures var rows := MapRows(KvServer.LeaderboardOf(data, category));
      forall i :: 0 <= i < |rows| ==> rows[i].rank == Num(i + 1)
  {
    KvServer.LeaderboardMeaning(data, category);
  }

  /** The category the load asks for: none for `All`. */
  function RequestedCategory(selected: string): (c: Option<string>)
    ensures c.None? <==> selected == "All"
  {
    if selected == "All" then None else Some(selected)
  }

  /** `user.name.toLowerCase().includes(searchQuery.toLowerCase())` */
  predicate NameMatches(e: Entry, query: string)
  {
    e.name.Text? && JsText.Contains(JsText.Lower(e.name.s), JsText.Lower(query))
  }

  /** The search filter, keeping order. */
  function Search(board: seq<Entry>, query: string): (r: seq<Entry>)
    ensures |r| <= |board|
    decreases |board|
  {
    if |board| == 0 then []
    else (if NameMatches(board[0], query) then [board[0]] else []) + Search(board[1..], query)
  }

  /** Search keeps exactly the rows whose name matches. */
  lemma {:induction false} SearchMeaning(board: seq<Entry>, query: string)
    ensures forall e :: e in Search(board, query) <==> e in board && NameMatches(e, query)
  {
    if |board| > 0 {
      SearchMeaning(board[1..], query);
      assert board == [board[0]] + board[1..];
    }
  }

  /** An empty search keeps every row whose name is a string, in order. */
  lemma {:induction false} EmptySearchKeepsAll(board: seq<Entry>)
    requires forall i :: 0 <= i < |board| ==> board[i].name.Text?
    ensures Search(board, "") == board
  {
    if |board| > 0 {
      JsText.ContainsEmpty(JsText.Lower(board[0].name.s));
      EmptySearchKeepsAll(board[1..]);
    }
  }

  /** The podium cards: the first three filtered rows. */
  function Podium(rows: seq<Entry>): (r: seq<Entry>)
    ensures |r| == (if |rows| < 3 then |rows| else 3)
  {
    if |rows| <= 3 then rows else rows[..3]
  }

  /** The compact rows: everything after the first three. */
  function Rest(rows: seq<Entry>): (r: seq<Entry>)
    ensures |r| == (if |rows| < 3 then 0 else |rows| - 3)
  {
    if |rows| <= 3 then [] else rows[3..]
  }

  /** Podium and rest split the filtered list: every row shows once, in order. */
  lemma PodiumSplit(rows: seq<Entry>)
    ensures Podium(rows) + Rest(rows) == rows
  {
  }

  datatype RankIcon = Crown | Medal | Star

  function RankGradient(rank: JsValue): (g: string)
    ensures rank !in {Num(1), Num(2), Num(3)} ==> g == "from-[#FF1744] to-[#FF6B9D]"
  {
    match rank
    case Num(1) => "from-[#FFD700] via-[#FFA500] to-[#FF8C00]"
    case Num(2) => "from-[#E8E8E8] via-[#C0C0C0] to-[#A8A8A8]"
    case Num(3) => "from-[#CD7F32] via-[#B8860B] to-[#8B4513]"
    case _ => "from-[#FF1744] to-[#FF6B9D]"
  }

  function RankIconOf(rank: JsValue): (i: RankIcon)
    ensures i == Crown <==> rank == Num(1)
    ensures i == Medal <==> rank == Num(2) || rank == Num(3)
  {
    match rank
    case Num(1) => Crown
    case Num(2) => Medal
    case Num(3) => Medal
    case _ => Star
  }

  function RankEmoji(rank: JsValue): (s: string)
    ensures s == "⭐" <==> rank !in {Num(1), Num(2), Num(3)}
  {
    match rank
    case Num(1) => "👑"
    case Num(2) => "🥈"
    case Num(3) => "🥉"
    case _ => "⭐"
  }

  /** Gradient, icon and emoji pick the same tier: gold, silver, bronze, or the plain default. */
  lemma DecorationsAgree(rank: JsValue)
    ensures RankIconOf(rank) == Star <==> RankEmoji(rank) == "⭐"
    ensures RankIconOf(rank) == Star <==> RankGradient(rank) == "from-[#FF1744] to-[#FF6B9D]"
    ensures RankIconOf(rank) == Crown <==> RankEmoji(rank) == "👑"
  {
  }

  class LeaderboardScreen {
    var board: seq<Entry>
    var loading: bool
    var category: string
    var query: string

    constructor()
      ensures board == [] && loading && category == "All" && query == ""
    {
      board := [];
      loading := true;
      category := "All";
      query := "";
    }

    /** The rows on screen. */
    function Shown(): (r: seq<Entry>)
      reads this
      ensures |r| <= |board|
    {
      Search(board, query)
    }

    /** `loadLeaderboard` up to the request; returns the category asked for. */
    method BeginLoad() returns (requested: Option<string>)
      modifies this
      ensures loading && board == old(board) && category == old(category) && query == old(query)
      ensures requested == RequestedCategory(category)
    {
      loading := true;
      requested := RequestedCategory(category);
    }

    /** The rest of `loadLeaderboard`. */
    method FinishLoad(fetched: Option<seq<KvServer.Profile>>)
      modifies this
      ensures !loading && board == LoadedBoard(fetched) && category == old(category) && query == old(query)
    {
      if fetched.Some? && |fetched.value| > 0 {
        board := MapRows(fetched.value);
      } else {
        board := MockBoard;
      }
      loading := false;
    }

    method SetQuery(q: string)
      modifies this
      ensures query == q && board == old(board) && loading == old(loading) && category == old(category)
    {
      query := q;
    }

    /** Picking a category chip; the board reloads through `BeginLoad`. */
    method SelectCategory(c: string)
      modifies this
      ensures category == c && board == old(board) && loading == old(loading) && query == old(query)
    {
      category := c;
    }
  }
}
