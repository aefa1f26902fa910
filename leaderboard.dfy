/**
 * The tournament tracker shared by the three games: one session (two named
 * players, a score per game and player, a running total, the index of the
 * current stage) and a global leaderboard of at most ten finished sessions,
 * ordered by the two players' combined total.  The browser's key-value store
 * is the object `Store`, whose two fields are the two stored records.
 */
module Leaderboard {
  import opened Wrappers

  /** The three stages of a tournament, in the order they are played. */
  datatype Game = Dino | Snake | Boxing

  /** Stage index 0, 1, 2 to game. */
  const Games: seq<Game> := [Dino, Snake, Boxing]

  /** One player's score in each of the three games. */
  datatype Scores = Scores(dino: int, snake: int, boxing: int) {

    function Get(g: Game): int {
      match g
      case Dino => dino
      case Snake => snake
      case Boxing => boxing
    }

    /** `scores[g] = v`: game `g` gets `v`, the other two games keep theirs. */
    function Set(g: Game, v: int): (r: Scores)
      ensures r.Get(g) == v
      ensures forall h: Game :: h != g ==> r.Get(h) == Get(h)
    {
      match g
      case Dino => this.(dino := v)
      case Snake => this.(snake := v)
      case Boxing => this.(boxing := v)
    }

    /** The sum of the values of the score record. */
    function Sum(): int {
      dino + snake + boxing
    }
  }

  const ZeroScores := Scores(0, 0, 0)

  /** Two score records that agree on every game are equal. */
  lemma ScoresExt(a: Scores, b: Scores)
    requires forall g: Game :: a.Get(g) == b.Get(g)
    ensures a == b
  {
    assert a.Get(Dino) == b.Get(Dino) && a.Get(Snake) == b.Get(Snake) && a.Get(Boxing) == b.Get(Boxing);
  }

  datatype PlayerRecord = PlayerRecord(name: string, scores: Scores, total: int)

  /** The stored session; `currentGame` is the index of the stage being played. */
  datatype Session = Session(player1: PlayerRecord, player2: PlayerRecord, currentGame: nat)

  /** Both players' scores in one game, as a leaderboard entry keeps them. */
  datatype GameScores = GameScores(p1: int, p2: int)

  /** One finished tournament on the leaderboard. */
  datatype Entry = Entry(
    player1: string, player2: string,
    player1Total: int, player2Total: int,
    dino: GameScores, snake: GameScores, boxing: GameScores)

  /** The key the leaderboard is ordered by. */
  function Combined(e: Entry): int {
    e.player1Total + e.player2Total
  }

  /** The largest number of entries the leaderboard keeps. */
  const Capacity := 10

  /** What `advanceToNextGame` answers. */
  datatype Advance = NoSession | Complete | Next(game: Game)

  /**
   * A name argument as JavaScript sees it: `None` is `undefined` or `null`;
   * together with the empty string these are the falsy names.
   */
  predicate Falsy(arg: Option<string>) {
    arg.None? || arg.value == ""
  }

  /** `arg || fallback`. */
  function NameOr(arg: Option<string>, fallback: string): (r: string)
    ensures r == fallback || (arg.Some? && r == arg.value)
    ensures arg.Some? && arg.value != "" ==> r == arg.value
    ensures fallback != "" ==> r != ""
  {
    if Falsy(arg) then fallback else arg.value
  }

  /** Every player's stored total equals the sum of that player's game scores. */
  predicate TotalsAgree(s: Session) {
    s.player1.total == s.player1.scores.Sum() && s.player2.total == s.player2.scores.Sum()
  }

  /** The leaderboard entry `completeSession` builds from a session. */
  function EntryOf(s: Session): (e: Entry)
    ensures e.player1 == s.player1.name && e.player2 == s.player2.name
    ensures e.player1Total == s.player1.total && e.player2Total == s.player2.total
    ensures e.dino == GameScores(s.player1.scores.Get(Dino), s.player2.scores.Get(Dino))
    ensures e.snake == GameScores(s.player1.scores.Get(Snake), s.player2.scores.Get(Snake))
    ensures e.boxing == GameScores(s.player1.scores.Get(Boxing), s.player2.scores.Get(Boxing))
  {
    Entry(s.player1.name, s.player2.name, s.player1.total, s.player2.total,
          GameScores(s.player1.scores.dino, s.player2.scores.dino),
          GameScores(s.player1.scores.snake, s.player2.scores.snake),
          GameScores(s.player1.scores.boxing, s.player2.scores.boxing))
  }

  // ---------------------------------------------------------------------------
  // Ordering the leaderboard

  /** Non-increasing by combined total. */
  predicate SortedDesc(s: seq<Entry>) {
    forall i, j :: 0 <= i < j < |s| ==> Combined(s[i]) >= Combined(s[j])
  }

  /**
   * Inserts `e` in front of the first entry whose combined total does not
   * exceed its own.  Entries with equal totals that came earlier in the input
   * stay earlier, as an insertion sort that inserts from the back does.
   */
  function Insert(e: Entry, t: seq<Entry>): (r: seq<Entry>)
    ensures multiset(r) == multiset(t) + multiset{e}
    ensures |r| == |t| + 1
  {
    if t == [] || Combined(e) >= Combined(t[0]) then [e] + t
    else
      assert t == [t[0]] + t[1..];
      [t[0]] + Insert(e, t[1..])
  }

  /** The comparator sort `(a, b) => combined(b) - combined(a)`, stable. */
  function SortByCombined(s: seq<Entry>): (r: seq<Entry>)
    ensures multiset(r) == multiset(s)
    ensures |r| == |s|
  {
    if s == [] then []
    else
      assert s == [s[0]] + s[1..];
      Insert(s[0], SortByCombined(s[1..]))
  }

  lemma {:induction false} InsertHead(e: Entry, t: seq<Entry>)
    requires t != []
    ensures Insert(e, t)[0] == e || Insert(e, t)[0] == t[0]
  {
  }

  lemma {:induction false} InsertSorted(e: Entry, t: seq<Entry>)
    requires SortedDesc(t)
    ensures SortedDesc(Insert(e, t))
  {
    if t == [] || Combined(e) >= Combined(t[0]) {
    } else {
      var rest := Insert(e, t[1..]);
      InsertSorted(e, t[1..]);
      if t[1..] != [] {
        InsertHead(e, t[1..]);
      }
      var r := [t[0]] + rest;
      forall i, j | 0 <= i < j < |r| ensures Combined(r[i]) >= Combined(r[j]) {
        if i > 0 {
          assert r[i] == rest[i - 1] && r[j] == rest[j - 1];
        } else {
          // r[j] is either e or an element of t[1..]; both are at most t[0]
          assert r[j] in multiset(rest);
          assert r[j] in multiset(t[1..]) || r[j] == e;
          if r[j] != e {
            var k :| 1 <= k < |t| && t[k] == r[j];
          }
        }
      }
    }
  }

  /** The sort yields an ordered leaderboard holding exactly the entries it was given. */
  lemma {:induction false} SortByCombinedCorrect(s: seq<Entry>)
    ensures SortedDesc(SortByCombined(s))
    ensures multiset(SortByCombined(s)) == multiset(s)
  {
    if s != [] {
      SortByCombinedCorrect(s[1..]);
      InsertSorted(s[0], SortByCombined(s[1..]));
    }
  }

  /** The entries with combined total `c`, in the order they appear. */
  function WithTotal(s: seq<Entry>, c: int): seq<Entry> {
    if s == [] then []
    else (if Combined(s[0]) == c then [s[0]] else []) + WithTotal(s[1..], c)
  }

  /** Inserting `e` puts it in front of every entry with the same total and moves no other such entry. */
  lemma {:induction false} InsertWithTotal(e: Entry, t: seq<Entry>, c: int)
    ensures WithTotal(Insert(e, t), c) == (if Combined(e) == c then [e] else []) + WithTotal(t, c)
  {
    var fe := if Combined(e) == c then [e] else [];
    if t == [] || Combined(e) >= Combined(t[0]) {
      var r := [e] + t;
      assert r[0] == e && r[1..] == t;
      assert WithTotal(r, c) == fe + WithTotal(t, c);
    } else {
      var rest := Insert(e, t[1..]);
      InsertWithTotal(e, t[1..], c);
      var r := [t[0]] + rest;
      assert r[0] == t[0] && r[1..] == rest;
      var f0 := if Combined(t[0]) == c then [t[0]] else [];
      assert WithTotal(r, c) == f0 + (fe + WithTotal(t[1..], c));
      assert WithTotal(t, c) == f0 + WithTotal(t[1..], c);
      assert fe == [] || f0 == [];
    }
  }

  /** The sort is stable: the entries of any one total keep their input order. */
  lemma {:induction false} SortByCombinedStable(s: seq<Entry>, c: int)
    ensures WithTotal(SortByCombined(s), c) == WithTotal(s, c)
  {
    if s != [] {
      SortByCombinedStable(s[1..], c);
      InsertWithTotal(s[0], SortByCombined(s[1..]), c);
    }
  }

  /** The first `Capacity` entries, or all of them when there are fewer (`splice(10)`). */
  function KeepTop(s: seq<Entry>): (r: seq<Entry>)
    ensures |r| == if |s| > Capacity then Capacity else |s|
    ensures r == s[..|r|]
  {
    if |s| > Capacity then s[..Capacity] else s
  }

  /** A prefix of an ordered sequence is ordered. */
  lemma PrefixSorted(s: seq<Entry>, n: nat)
    requires SortedDesc(s) && n <= |s|
    ensures SortedDesc(s[..n])
  {
  }

  /** The leaderboard `completeSession` writes, from the stored one and the session. */
  function Completed(board: seq<Entry>, s: Session): seq<Entry> {
    KeepTop(SortByCombined(board + [EntryOf(s)]))
  }

  /**
   * What completing a session does to the leaderboard: it is ordered, it has
   * one entry more up to the capacity, and every entry on it is an old entry
   * or the new one.
   */
  lemma {:induction false} CompletedProperties(board: seq<Entry>, s: Session)
    ensures SortedDesc(Completed(board, s))
    ensures |Completed(board, s)| == if |board| + 1 > Capacity then Capacity else |board| + 1
    ensures multiset(Completed(board, s)) <= multiset(board) + multiset{EntryOf(s)}
  {
    var all := board + [EntryOf(s)];
    var sorted := SortByCombined(all);
    SortByCombinedCorrect(all);
    var kept := KeepTop(sorted);
    PrefixSorted(sorted, |kept|);
    assert sorted == kept + sorted[|kept|..];
    assert multiset(sorted) == multiset(kept) + multiset(sorted[|kept|..]);
  }

  /** The entries `splice(10)` cuts from the sorted board. */
  function Dropped(board: seq<Entry>, s: Session): seq<Entry> {
    var sorted := SortByCombined(board + [EntryOf(s)]);
    sorted[|KeepTop(sorted)|..]
  }

  /**
   * Keeping the top ten: the kept and the cut entries together are exactly
   * the old entries and the new one, and no cut entry has a larger combined
   * total than a kept one.
   */
  lemma {:induction false} CompletedKeepsTop(board: seq<Entry>, s: Session)
    ensures multiset(Completed(board, s)) + multiset(Dropped(board, s)) == multiset(board) + multiset{EntryOf(s)}
    ensures forall e, d :: e in Completed(board, s) && d in Dropped(board, s) ==> Combined(e) >= Combined(d)
  {
    var all := board + [EntryOf(s)];
    var sorted := SortByCombined(all);
    SortByCombinedCorrect(all);
    var kept, cut := Completed(board, s), Dropped(board, s);
    assert sorted == kept + cut;
    assert multiset(all) == multiset(board) + multiset{EntryOf(s)};
    forall e, d | e in kept && d in cut ensures Combined(e) >= Combined(d) {
      var i :| 0 <= i < |kept| && kept[i] == e;
      var j :| 0 <= j < |cut| && cut[j] == d;
      assert sorted[i] == e && sorted[|kept| + j] == d;
    }
  }

  /** When the board has room, the new entry is always kept. */
  lemma {:induction false} CompletedKeepsEntryWhenRoom(board: seq<Entry>, s: Session)
    requires |board| < Capacity
    ensures EntryOf(s) in Completed(board, s)
  {
    var all := board + [EntryOf(s)];
    SortByCombinedCorrect(all);
    assert EntryOf(s) in multiset(all);
    assert EntryOf(s) in multiset(SortByCombined(all));
  }

  // ---------------------------------------------------------------------------
  // Stage order

  /** The game played at stage index `i`, or `None` past the last stage (`undefined`). */
  function StageGame(i: nat): (r: Option<Game>)
    ensures r.Some? <==> i < 3
    ensures i == 0 ==> r == Some(Dino)
    ensures i == 1 ==> r == Some(Snake)
    ensures i == 2 ==> r == Some(Boxing)
  {
    if i < |Games| then Some(Games[i]) else None
  }

  // ---------------------------------------------------------------------------
  // formatTime

  function DigitChar(d: nat): (c: char)
    requires d < 10
    ensures '0' <= c <= '9'
  {
    "0123456789"[d]
  }

  function DigitValue(c: char): nat {
    if '0' <= c <= '9' then (c as int - '0' as int) as nat else 0
  }

  lemma DigitRoundTrip(d: nat)
    requires d < 10
    ensures DigitValue(DigitChar(d)) == d
  {
  }

  /** `n.toString()`: decimal digits, no leading zero. */
  function NatToString(n: nat): (r: string)
    ensures |r| >= 1
    ensures forall i :: 0 <= i < |r| ==> '0' <= r[i] <= '9'
    ensures n < 10 <==> |r| == 1
    ensures |r| > 1 ==> r[0] != '0'
  {
    if n < 10 then [DigitChar(n)] else NatToString(n / 10) + [DigitChar(n % 10)]
  }

  /** Reads a string of decimal digits back as a number. */
  function ParseDecimal(t: string): nat {
    if t == [] then 0 else ParseDecimal(t[..|t| - 1]) * 10 + DigitValue(t[|t| - 1])
  }

  lemma {:induction false} ParseNatToString(n: nat)
    ensures ParseDecimal(NatToString(n)) == n
  {
    if n < 10 {
      DigitRoundTrip(n);
      assert ParseDecimal([DigitChar(n)]) == ParseDecimal([]) * 10 + DigitValue(DigitChar(n));
    } else {
      var t := NatToString(n / 10) + [DigitChar(n % 10)];
      assert t[..|t| - 1] == NatToString(n / 10);
      ParseNatToString(n / 10);
      DigitRoundTrip(n % 10);
    }
  }

  /** `t.padStart(2, '0')`: zeros in front up to two characters; a longer string is kept. */
  function PadTwo(t: string): (r: string)
    ensures |r| == if |t| < 2 then 2 else |t|
    ensures r[|r| - |t|..] == t
    ensures forall i :: 0 <= i < |r| - |t| ==> r[i] == '0'
  {
    if |t| == 0 then "00" else if |t| == 1 then ['0'] + t else t
  }

  /** `formatTime(seconds)` for a whole, nonnegative number of seconds: `M:SS`. */
  function FormatTime(seconds: nat): (r: string)
    ensures |r| >= 4 && r[|r| - 3] == ':'
    ensures r[..|r| - 3] == NatToString(seconds / 60)
    ensures forall i :: |r| - 2 <= i < |r| ==> '0' <= r[i] <= '9'
  {
    var mins := NatToString(seconds / 60);
    var field := PadTwo(NatToString(seconds % 60));
    SecondsFieldValue(seconds % 60);
    PadTwoDigits(NatToString(seconds % 60));
    SplitAtColon(mins, field);
    mins + ":" + field
  }

  /** Where the colon of `a:b` sits when `b` has two characters. */
  lemma SplitAtColon(a: string, b: string)
    requires |b| == 2
    ensures var r := a + ":" + b;
      && |r| == |a| + 3 && r[|r| - 3] == ':' && r[..|r| - 3] == a && r[|r| - 2..] == b
      && r[|r| - 2] == b[0] && r[|r| - 1] == b[1]
  {
    var r := a + ":" + b;
    assert r[..|a|] == a;
    assert r[|a| + 1..] == b;
  }

  /** Seconds below a minute print in at most two digits. */
  lemma SecondsFieldWidth(secs: nat)
    requires secs < 60
    ensures |NatToString(secs)| <= 2
  {
    if secs >= 10 {
      assert NatToString(secs) == NatToString(secs / 10) + [DigitChar(secs % 10)];
    }
  }

  /** Padding a string of digits gives a string of digits. */
  lemma PadTwoDigits(t: string)
    requires forall i :: 0 <= i < |t| ==> '0' <= t[i] <= '9'
    ensures forall i :: 0 <= i < |PadTwo(t)| ==> '0' <= PadTwo(t)[i] <= '9'
  {
    var r := PadTwo(t);
    var k := |r| - |t|;
    forall i | 0 <= i < |r|
      ensures '0' <= r[i] <= '9'
    {
      if i >= k {
        assert r[i] == r[k..][i - k];
      }
    }
  }

  /** The two numeric fields of an `M:SS` string, split at its last colon but two. */
  function ParseTime(t: string): (r: Option<nat>) {
    if |t| < 4 || t[|t| - 3] != ':' then None
    else Some(ParseDecimal(t[..|t| - 3]) * 60 + ParseDecimal(t[|t| - 2..]))
  }

  /** Leading zeros do not change a decimal value. */
  lemma ParseLeadingZero(t: string)
    ensures ParseDecimal(['0'] + t) == ParseDecimal(t)
    decreases |t|
  {
    if t != [] {
      assert (['0'] + t)[..|t|] == ['0'] + t[..|t| - 1];
      ParseLeadingZero(t[..|t| - 1]);
    }
  }

  /**
   * `formatTime` loses nothing: reading the minutes and the two-digit seconds
   * field back gives `mins * 60 + secs == seconds`, with `secs < 60`.
   */
  lemma {:induction false} FormatTimeRoundTrip(seconds: nat)
    ensures ParseTime(FormatTime(seconds)) == Some(seconds)
    ensures ParseDecimal(FormatTime(seconds)[|FormatTime(seconds)| - 2..]) == seconds % 60 < 60
  {
    ParseFormatted(FormatTime(seconds), seconds);
  }

  /** The `M:SS` string of the minutes and the padded seconds of `seconds` reads back as `seconds`. */
  lemma ParseFormatted(r: string, seconds: nat)
    requires r == NatToString(seconds / 60) + ":" + PadTwo(NatToString(seconds % 60))
    ensures ParseTime(r) == Some(seconds)
    ensures ParseDecimal(r[|r| - 2..]) == seconds % 60
  {
    SecondsFieldValue(seconds % 60);
    SplitAtColon(NatToString(seconds / 60), PadTwo(NatToString(seconds % 60)));
    ParseNatToString(seconds / 60);
    ParseTimeFields(r, seconds);
  }

  /** `ParseTime` of an `M:SS` string whose two fields read as the minutes and seconds of `seconds`. */
  lemma ParseTimeFields(r: string, seconds: nat)
    requires |r| >= 4 && r[|r| - 3] == ':'
    requires ParseDecimal(r[..|r| - 3]) == seconds / 60 && ParseDecimal(r[|r| - 2..]) == seconds % 60
    ensures ParseTime(r) == Some(seconds)
  {
  }

  /** The padded seconds field is two characters and reads back as the seconds. */
  lemma SecondsFieldValue(secs: nat)
    requires secs < 60
    ensures |PadTwo(NatToString(secs))| == 2
    ensures ParseDecimal(PadTwo(NatToString(secs))) == secs
  {
    SecondsFieldWidth(secs);
    ParseNatToString(secs);
    if |NatToString(secs)| < 2 {
      assert PadTwo(NatToString(secs)) == ['0'] + NatToString(secs);
      ParseLeadingZero(NatToString(secs));
    }
  }

  // ---------------------------------------------------------------------------
  // The store

  /** The two stored records: the current session, if any, and the leaderboard. */
  class Store {
    var session: Option<Session>
    var leaderboard: seq<Entry>

    /** A store as loaded: whatever the two keys hold. */
    constructor (saved: Option<Session>, board: seq<Entry>)
      ensures session == saved && leaderboard == board
    {
      session := saved;
      leaderboard := board;
    }

    /** `startNewSession`: default names for falsy arguments, all scores zero, stage 0. */
    method StartNewSession(name1: Option<string>, name2: Option<string>) returns (s: Session)
      modifies this
      ensures session == Some(s) && leaderboard == old(leaderboard)
      ensures s.player1.name == NameOr(name1, "Player 1")
      ensures s.player2.name == NameOr(name2, "Player 2")
      ensures s.player1.scores == ZeroScores && s.player2.scores == ZeroScores
      ensures s.player1.total == 0 && s.player2.total == 0
      ensures s.currentGame == 0
      ensures TotalsAgree(s)
    {
      s := Session(PlayerRecord(NameOr(name1, "Player 1"), ZeroScores, 0),
                   PlayerRecord(NameOr(name2, "Player 2"), ZeroScores, 0),
                   0);
      session := Some(s);
    }

    /**
     * `updateSessionScore`: without a session nothing happens; otherwise game
     * `game` gets the two scores, the other games keep theirs, and each total
     * is recomputed as the sum of the player's scores.
     */
    method UpdateSessionScore(game: Game, player1Score: int, player2Score: int) returns (r: Option<Session>)
      modifies this
      ensures leaderboard == old(leaderboard)
      ensures old(session).None? ==> session == None && r == None
      ensures old(session).Some? ==> r.Some? && session == r
      ensures old(session).Some? ==>
        var s, s' := old(session).value, r.value;
        && s'.player1.name == s.player1.name && s'.player2.name == s.player2.name
        && s'.currentGame == s.currentGame
        && s'.player1.scores.Get(game) == player1Score
        && s'.player2.scores.Get(game) == player2Score
        && (forall g: Game :: g != game ==>
              s'.player1.scores.Get(g) == s.player1.scores.Get(g) &&
              s'.player2.scores.Get(g) == s.player2.scores.Get(g))
        && TotalsAgree(s')
    {
      if session.None? {
        return None;
      }
      var s := session.value;
      var p1 := s.player1.(scores := s.player1.scores.Set(game, player1Score));
      var p2 := s.player2.(scores := s.player2.scores.Set(game, player2Score));
      p1 := p1.(total := p1.scores.Sum());
      p2 := p2.(total := p2.scores.Sum());
      s := s.(player1 := p1, player2 := p2);
      session := Some(s);
      r := session;
    }

    /**
     * `completeSession`: without a session nothing happens; otherwise the
     * session's entry is added, the board is ordered by combined total and cut
     * to its first ten entries, and the session is removed.
     */
    method CompleteSession() returns (r: Option<seq<Entry>>)
      modifies this
      ensures old(session).None? ==> session == None && leaderboard == old(leaderboard) && r == None
      ensures old(session).Some? ==>
        && session == None
        && leaderboard == Completed(old(leaderboard), old(session).value)
        && r == Some(leaderboard)
      ensures old(session).Some? ==>
        && SortedDesc(leaderboard)
        && |leaderboard| == (if |old(leaderboard)| + 1 > Capacity then Capacity else |old(leaderboard)| + 1)
        && multiset(leaderboard) <= multiset(old(leaderboard)) + multiset{EntryOf(old(session).value)}
    {
      if session.None? {
        return None;
      }
      var s := session.value;
      CompletedProperties(leaderboard, s);
      var board := leaderboard + [EntryOf(s)];
      board := SortByCombined(board);
      if |board| > Capacity {
        board := board[..Capacity];
      }
      leaderboard := board;
      session := None;
      r := Some(board);
    }

    /** `clearSession`: the session is removed, the leaderboard kept. */
    method ClearSession()
      modifies this
      ensures session == None && leaderboard == old(leaderboard)
    {
      session := None;
    }

    /** `getNextGame`: the game of the current stage; `None` without a session or past the last stage. */
    function GetNextGame(): (r: Option<Game>)
      reads this
      ensures session.None? ==> r.None?
      ensures session.Some? ==> r == StageGame(session.value.currentGame)
    {
      if session.None? then None else StageGame(session.value.currentGame)
    }

    /**
     * `advanceToNextGame`: the stage index rises by exactly one; the answer is
     * `Complete` from index 3 on, otherwise the game of the new stage.
     */
    method AdvanceToNextGame() returns (r: Advance)
      modifies this
      ensures leaderboard == old(leaderboard)
      ensures old(session).None? ==> session == None && r == NoSession
      ensures old(session).Some? ==>
        && session == Some(old(session).value.(currentGame := old(session).value.currentGame + 1))
        && (session.value.currentGame >= 3 ==> r == Complete)
        && (session.value.currentGame < 3 ==> r == Next(Games[session.value.currentGame]))
    {
      if session.None? {
        return NoSession;
      }
      var s := session.value;
      s := s.(currentGame := s.currentGame + 1);
      session := Some(s);
      if s.currentGame >= 3 {
        return Complete;
      }
      var g := GetNextGame();
      r := Next(g.value);
    }
  }

  /**
   * A whole tournament through the store: a fresh session on an empty store,
   * the three games' scores written, the session completed.  The one entry on
   * the board carries the names, the six scores, and a combined total equal
   * to the sum of both players' game scores.
   */
  method TournamentRoundTrip(name1: string, name2: string,
                             dino1: int, dino2: int, snake1: int, snake2: int, boxing1: int, boxing2: int)
    returns (board: seq<Entry>)
    requires name1 != "" && name2 != ""
    ensures |board| == 1
    ensures board[0].player1 == name1 && board[0].player2 == name2
    ensures board[0].dino == GameScores(dino1, dino2)
    ensures board[0].snake == GameScores(snake1, snake2)
    ensures board[0].boxing == GameScores(boxing1, boxing2)
    ensures Combined(board[0]) == dino1 + dino2 + snake1 + snake2 + boxing1 + boxing2
  {
    var store := new Store(None, []);
    var s := store.StartNewSession(Some(name1), Some(name2));
    var u := store.UpdateSessionScore(Dino, dino1, dino2);
    ScoresExt(u.value.player1.scores, Scores(dino1, 0, 0));
    ScoresExt(u.value.player2.scores, Scores(dino2, 0, 0));
    u := store.UpdateSessionScore(Snake, snake1, snake2);
    ScoresExt(u.value.player1.scores, Scores(dino1, snake1, 0));
    ScoresExt(u.value.player2.scores, Scores(dino2, snake2, 0));
    u := store.UpdateSessionScore(Boxing, boxing1, boxing2);
    ScoresExt(u.value.player1.scores, Scores(dino1, snake1, boxing1));
    ScoresExt(u.value.player2.scores, Scores(dino2, snake2, boxing2));
    var last := u.value;
    assert last.player1 == PlayerRecord(name1, Scores(dino1, snake1, boxing1), dino1 + snake1 + boxing1);
    assert last.player2 == PlayerRecord(name2, Scores(dino2, snake2, boxing2), dino2 + snake2 + boxing2);
    var done := store.CompleteSession();
    board := done.value;
    assert board == KeepTop(SortByCombined([EntryOf(last)]));
  }
}
