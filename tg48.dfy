// The Telegram side of tg48 (cmd/tg48/main.go): splitting a message into a
// command name and arguments, the `start` and `leaderboard` commands, the
// leaderboard table, the per-period cache the game client's handler fills,
// and the reply fields `handleMessage` sets.

module Tg48 {
  import opened Wrappers
  import opened Decimal
  import opened Wire
  import opened Sequences

  // ---------------------------------------------------------------- splitting on single spaces

  /** Go's `strings.Split` on a single space: the pieces between spaces; empty pieces are kept and the empty text gives one empty piece. */
  function Split(s: string): (r: seq<string>)
    ensures |r| >= 1
    ensures forall i :: 0 <= i < |r| ==> ' ' !in r[i]
    decreases |s|
  {
    if |s| == 0 then [""]
    else
      var rest := Split(s[1..]);
      if s[0] == ' ' then [""] + rest
      else [[s[0]] + rest[0]] + rest[1..]
  }

  /** Go's `strings.Join` with a single space, the partner of `Split`. */
  function Join(pieces: seq<string>): string
    decreases |pieces|
  {
    if |pieces| == 0 then ""
    else if |pieces| == 1 then pieces[0]
    else pieces[0] + " " + Join(pieces[1..])
  }

  /** Joining a head piece onto the rest. */
  lemma JoinCons(a: string, rest: seq<string>)
    ensures Join([a] + rest) == if |rest| == 0 then a else a + " " + Join(rest)
  {
    assert ([a] + rest)[1..] == rest;
  }

  /** Splitting loses nothing: the pieces joined by single spaces give the text back. */
  lemma {:induction false} JoinSplit(s: string)
    ensures Join(Split(s)) == s
    decreases |s|
  {
    if |s| > 0 {
      var rest := Split(s[1..]);
      JoinSplit(s[1..]);
      if s[0] == ' ' {
        JoinCons("", rest);
        assert s == " " + s[1..];
      } else {
        JoinCons([s[0]] + rest[0], rest[1..]);
        JoinCons(rest[0], rest[1..]);
        assert [rest[0]] + rest[1..] == rest;
        assert s == [s[0]] + s[1..];
      }
    }
  }

  /** A word without spaces glues onto the first piece of whatever follows it. */
  lemma {:induction false} SplitWord(w: string, t: string)
    requires ' ' !in w
    ensures Split(w + t) == [w + Split(t)[0]] + Split(t)[1..]
    decreases |w|
  {
    if |w| == 0 {
      assert w + t == t;
      assert w + Split(t)[0] == Split(t)[0];
      assert [Split(t)[0]] + Split(t)[1..] == Split(t);
    } else {
      assert (w + t)[0] == w[0];
      assert (w + t)[1..] == w[1..] + t;
      SplitWord(w[1..], t);
      assert [w[0]] + (w[1..] + Split(t)[0]) == w + Split(t)[0];
    }
  }

  /** Splitting is the inverse of joining pieces that hold no space. */
  lemma {:induction false} SplitJoin(pieces: seq<string>)
    requires |pieces| >= 1
    requires forall i :: 0 <= i < |pieces| ==> ' ' !in pieces[i]
    ensures Split(Join(pieces)) == pieces
    decreases |pieces|
  {
    if |pieces| == 1 {
      SplitWord(pieces[0], "");
      assert pieces[0] + "" == pieces[0];
    } else {
      var t := Join(pieces[1..]);
      SplitJoin(pieces[1..]);
      assert Join(pieces) == pieces[0] + (" " + t);
      SplitWord(pieces[0], " " + t);
      assert (" " + t)[1..] == t;
      assert Split(" " + t) == [""] + Split(t);
      assert pieces[0] + "" == pieces[0];
      assert [pieces[0]] + pieces[1..] == pieces;
    }
  }

  // ---------------------------------------------------------------- handleCommand's parse

  /** The command the text names and the arguments it gives. */
  datatype Command = Command(name: string, arguments: seq<string>)

  /** Go's `strings.TrimPrefix` with a slash: at most one leading slash is removed. */
  function TrimSlash(s: string): string
  {
    if |s| > 0 && s[0] == '/' then s[1..] else s
  }

  /**
   * `handleCommand`'s parse: the first space-separated piece with one leading
   * slash removed names the command, the remaining pieces (empty ones
   * included) are its arguments.
   */
  function ParseCommand(text: string): (c: Command)
    ensures ' ' !in c.name
    ensures forall i :: 0 <= i < |c.arguments| ==> ' ' !in c.arguments[i]
    ensures if |text| > 0 && text[0] == '/' then text == "/" + Join([c.name] + c.arguments)
            else text == Join([c.name] + c.arguments)
  {
    var pieces := Split(text);
    ParseShape(text, pieces);
    Command(TrimSlash(pieces[0]), pieces[1..])
  }

  /** The pieces of a text, first piece slash-trimmed, join back to the text without its leading slash. */
  lemma ParseShape(text: string, pieces: seq<string>)
    requires pieces == Split(text)
    ensures ' ' !in TrimSlash(pieces[0])
    ensures |text| > 0 && text[0] == '/' ==> text == "/" + Join([TrimSlash(pieces[0])] + pieces[1..])
    ensures !(|text| > 0 && text[0] == '/') ==> text == Join([TrimSlash(pieces[0])] + pieces[1..])
  {
    FirstPieceSlash(text);
    var name, rest := TrimSlash(pieces[0]), pieces[1..];
    assert text == Join([pieces[0]] + rest) by {
      JoinSplit(text);
      assert [pieces[0]] + rest == pieces;
    }
    if |text| > 0 && text[0] == '/' {
      assert pieces[0] == "/" + name;
      JoinCons(pieces[0], rest);
      JoinCons(name, rest);
      if |rest| > 0 {
        calc {
          text;
          pieces[0] + " " + Join(rest);
          ("/" + name) + " " + Join(rest);
        == { Assoc("/", name, " "); }
          "/" + (name + " ") + Join(rest);
        == { Assoc("/", name + " ", Join(rest)); }
          "/" + (name + " " + Join(rest));
          "/" + Join([name] + rest);
        }
      }
    }
  }

  /** The first piece starts with a slash exactly when the text does. */
  lemma FirstPieceSlash(text: string)
    ensures |text| > 0 && text[0] == '/' <==> |Split(text)[0]| > 0 && Split(text)[0][0] == '/'
  {
    if |text| > 0 {
      if text[0] == ' ' {
        assert Split(text) == [""] + Split(text[1..]);
      } else {
        assert Split(text)[0] == [text[0]] + Split(text[1..])[0];
      }
    }
  }

  /** Text built from space-free pieces parses back to its first piece (slash trimmed) and the rest. */
  lemma ParseJoin(pieces: seq<string>)
    requires |pieces| >= 1
    requires forall i :: 0 <= i < |pieces| ==> ' ' !in pieces[i]
    ensures ParseCommand(Join(pieces)) == Command(TrimSlash(pieces[0]), pieces[1..])
  {
    SplitJoin(pieces);
  }

  // ---------------------------------------------------------------- leaderboardPeriods

  /** `leaderboardPeriods`: the argument words the `leaderboard` command accepts. */
  const Periods: map<string, LeaderboardPeriod> :=
    map["alltime" := AllTimeLeaderboard, "weekly" := WeeklyTimeLeaderboard, "daily" := DailyTimeLeaderboard]

  /** The period the `leaderboard` command shows: the first argument's, or AllTime. */
  function ChoosePeriod(arguments: seq<string>): (p: LeaderboardPeriod)
    ensures p == WeeklyTimeLeaderboard <==> |arguments| > 0 && arguments[0] == "weekly"
    ensures p == DailyTimeLeaderboard <==> |arguments| > 0 && arguments[0] == "daily"
    ensures p == AllTimeLeaderboard <==> |arguments| == 0 || (arguments[0] != "weekly" && arguments[0] != "daily")
  {
    if |arguments| > 0 && arguments[0] in Periods then Periods[arguments[0]] else AllTimeLeaderboard
  }

  /** Arguments after the first never change the period. */
  lemma ChoosePeriodFirstOnly(arguments: seq<string>, more: seq<string>)
    requires |arguments| > 0
    ensures ChoosePeriod(arguments + more) == ChoosePeriod(arguments)
  {
    assert (arguments + more)[0] == arguments[0];
  }

  // ---------------------------------------------------------------- the table

  /** Longest player name a row can pad; a longer one makes `strings.Repeat` panic. */
  const NameWidth: nat := 20
  const ScoreWidth: nat := 10

  /** The header: `Player` and `Score` left-justified to 20 and 10 runes between bars, then a rule of 22 and 12 dashes. */
  const Header: string :=
    "| " + PadRight("Player", NameWidth) + " | " + PadRight("Score", ScoreWidth) + " |\n|"
    + Repeat('-', 22) + "|" + Repeat('-', ScoreWidth + 2) + "|\n"

  /** A row: the name padded with spaces to 20 runes and the decimal score left-justified to 10, between bars. */
  function Row(e: LeaderboardEntry): (r: string)
    requires |e.player| <= NameWidth
  {
    "| " + e.player + Repeat(' ', NameWidth - |e.player|) + " | " + PadRight(FormatInt(e.score as int), ScoreWidth) + " |\n"
  }

  /** Every name fits its column, so no row panics. */
  predicate Fits(entries: seq<LeaderboardEntry>)
  {
    forall i :: 0 <= i < |entries| ==> |entries[i].player| <= NameWidth
  }

  /** The row of each entry, in stored order. */
  function Lines(entries: seq<LeaderboardEntry>): (ls: seq<string>)
    requires Fits(entries)
    ensures |ls| == |entries|
    ensures forall i :: 0 <= i < |entries| ==> ls[i] == Row(entries[i])
  {
    seq(|entries|, i requires 0 <= i < |entries| => Row(entries[i]))
  }

  /** Lines written one after the other. */
  function Unlines(ls: seq<string>): string
    decreases |ls|
  {
    if |ls| == 0 then "" else Unlines(ls[..|ls| - 1]) + ls[|ls| - 1]
  }

  /** The rows of the entries, one per entry, in stored order. */
  function Rows(entries: seq<LeaderboardEntry>): string
    requires Fits(entries)
  {
    Unlines(Lines(entries))
  }

  /** A Markdown code block around the text. */
  function Fenced(s: string): string
  {
    "```\n" + s + "```"
  }

  /** The text of the `leaderboard` reply: the header and the rows in a code block. */
  function Table(entries: seq<LeaderboardEntry>): string
    requires Fits(entries)
  {
    Fenced(Header + Rows(entries))
  }

  const MarkdownV2 := "MarkdownV2"

  /** The header spelled out: both lines are 38 characters wide. */
  lemma HeaderText()
    ensures Header == "| Player" + Repeat(' ', 14) + " | Score" + Repeat(' ', 5) + " |\n|"
                      + Repeat('-', 22) + "|" + Repeat('-', 12) + "|\n"
    ensures |Header| == 76 && Header[37] == '\n' && Header[75] == '\n'
  {
    assert PadRight("Player", NameWidth) == "Player" + Repeat(' ', 14);
    assert PadRight("Score", ScoreWidth) == "Score" + Repeat(' ', 5);
  }

  /** A row is the name padded to 20 and the score padded to 10, between bars. */
  lemma RowFields(e: LeaderboardEntry)
    requires |e.player| <= NameWidth
    ensures Row(e) == "| " + PadRight(e.player, NameWidth) + " | " + PadRight(FormatInt(e.score as int), ScoreWidth) + " |\n"
    ensures Row(e)[2..2 + |e.player|] == e.player
    ensures |FormatInt(e.score as int)| <= ScoreWidth ==> |Row(e)| == 38
  {
    var p := e.player;
    var s := PadRight(FormatInt(e.score as int), ScoreWidth);
    assert Row(e) == "| " + PadRight(p, NameWidth) + (" | " + s + " |\n");
    assert (("| " + p) + Repeat(' ', NameWidth - |p|) + (" | " + s + " |\n"))[2..2 + |p|] == p;
  }

  /** Lines of a concatenation are written one block after the other. */
  lemma {:induction false} UnlinesAppend(x: seq<string>, y: seq<string>)
    ensures Unlines(x + y) == Unlines(x) + Unlines(y)
    decreases |y|
  {
    if |y| == 0 {
      assert x + y == x;
    } else {
      var y', last := y[..|y| - 1], y[|y| - 1];
      calc {
        Unlines(x + y);
      == { assert (x + y)[..|x + y| - 1] == x + y'; assert (x + y)[|x + y| - 1] == last; }
        Unlines(x + y') + last;
      == { UnlinesAppend(x, y'); }
        Unlines(x) + Unlines(y') + last;
      == 
        Unlines(x) + (Unlines(y') + last);
      }
    }
  }

  /** Rows of a concatenation are the concatenated rows. */
  lemma RowsAppend(a: seq<LeaderboardEntry>, b: seq<LeaderboardEntry>)
    requires Fits(a) && Fits(b)
    ensures Fits(a + b)
    ensures Rows(a + b) == Rows(a) + Rows(b)
  {
    LinesAppend(a, b);
    calc {
      Rows(a + b);
      Unlines(Lines(a + b));
    == { LinesAppend(a, b); }
      Unlines(Lines(a) + Lines(b));
    == { UnlinesAppend(Lines(a), Lines(b)); }
      Rows(a) + Rows(b);
    }
  }

  /** Lines of a concatenation are the concatenated lines. */
  lemma LinesAppend(a: seq<LeaderboardEntry>, b: seq<LeaderboardEntry>)
    requires Fits(a) && Fits(b)
    ensures Fits(a + b)
    ensures Lines(a + b) == Lines(a) + Lines(b)
  {
    assert Fits(a + b) by {
      forall i | 0 <= i < |a + b| ensures |(a + b)[i].player| <= NameWidth {
        if i >= |a| { assert (a + b)[i] == b[i - |a|]; }
      }
    }
    forall i | 0 <= i < |a + b| ensures Lines(a + b)[i] == (Lines(a) + Lines(b))[i] {
      if i >= |a| { assert (a + b)[i] == b[i - |a|]; }
    }
  }

  /** One more entry, one more row at the end: the step the renderer's loop takes. */
  lemma RowsSnoc(entries: seq<LeaderboardEntry>, i: nat)
    requires i < |entries|
    requires Fits(entries[..i]) && |entries[i].player| <= NameWidth
    ensures Fits(entries[..i + 1])
    ensures Rows(entries[..i + 1]) == Rows(entries[..i]) + Row(entries[i])
  {
    var init := entries[..i + 1];
    assert init[..i] == entries[..i];
    assert Lines(init)[..i] == Lines(entries[..i]);
  }

  /**
   * The `leaderboard` command's loop: `res += row` for each stored entry in
   * order, panicking (`None`) at the first name longer than 20 runes.
   */
  method AppendRows(res0: string, entries: seq<LeaderboardEntry>) returns (res: Option<string>)
    ensures res.Some? <==> Fits(entries)
    ensures res.Some? ==> Fits(entries) && res.value == res0 + Rows(entries)
  {
    var acc := res0;
    var i := 0;
    while i < |entries|
      invariant 0 <= i <= |entries|
      invariant Fits(entries[..i]) && acc == res0 + Rows(entries[..i])
    {
      var lb := entries[i];
      var padding := |lb.player|;
      if padding > NameWidth {
        return None;
      }
      RowsSnoc(entries, i);
      Assoc(res0, Rows(entries[..i]), Row(lb));
      acc := acc + Row(lb);
      i := i + 1;
    }
    assert entries[..i] == entries;
    return Some(acc);
  }

  /** Lines of one width lie end to end: line i is the i-th block. */
  lemma {:induction false} UnlinesBlocks(ls: seq<string>, w: nat)
    requires forall i :: 0 <= i < |ls| ==> |ls[i]| == w
    ensures |Unlines(ls)| == w * |ls|
    ensures forall i :: 0 <= i < |ls| ==> Unlines(ls)[w * i..w * (i + 1)] == ls[i]
    decreases |ls|
  {
    if |ls| > 0 {
      var n := |ls| - 1;
      var init := ls[..n];
      UnlinesBlocks(init, w);
      assert Unlines(ls) == Unlines(init) + ls[n];
      assert init + [ls[n]] == ls;
      BlocksStep(Unlines(init), ls[n], init, w);
    }
  }

  /** n blocks of width w followed by one more block of width w. */
  lemma BlocksStep(a: string, b: string, init: seq<string>, w: nat)
    requires |a| == w * |init| && |b| == w
    requires forall i :: 0 <= i < |init| ==> a[w * i..w * (i + 1)] == init[i]
    ensures |a + b| == w * (|init| + 1)
    ensures forall i :: 0 <= i < |init| + 1 ==> (a + b)[w * i..w * (i + 1)] == (init + [b])[i]
  {
    var n := |init|;
    BlockLast(a, b, w, n);
    forall i | 0 <= i < n + 1 ensures (a + b)[w * i..w * (i + 1)] == (init + [b])[i] {
      if i < n {
        BlockInFront(a, b, w, i, n);
      }
    }
  }

  /** A block inside the front part of a concatenation is a block of the front part. */
  lemma BlockInFront(a: string, b: string, w: nat, i: nat, n: nat)
    requires i < n && |a| == w * n
    ensures w * i <= w * (i + 1) <= |a|
    ensures (a + b)[w * i..w * (i + 1)] == a[w * i..w * (i + 1)]
  {
    MulMono(w, i, i + 1);
    MulMono(w, i + 1, n);
  }

  /** The block after a front part of n blocks is the back part. */
  lemma BlockLast(a: string, b: string, w: nat, n: nat)
    requires |a| == w * n && |b| == w
    ensures |a + b| == w * (n + 1)
    ensures (a + b)[w * n..w * (n + 1)] == b
  {
    assert w * (n + 1) == w * n + w;
  }

  lemma MulMono(w: nat, a: nat, b: nat)
    requires a <= b
    ensures w * a <= w * b
  {
  }

  /** With scores of at most ten characters every row is 38 wide, so entry i is the i-th 38-character block. */
  lemma RowsLayout(entries: seq<LeaderboardEntry>)
    requires Fits(entries)
    requires forall i :: 0 <= i < |entries| ==> |FormatInt(entries[i].score as int)| <= ScoreWidth
    ensures |Rows(entries)| == 38 * |entries|
    ensures forall i :: 0 <= i < |entries| ==> Rows(entries)[38 * i..38 * (i + 1)] == Row(entries[i])
  {
    var ls := Lines(entries);
    forall i | 0 <= i < |ls| ensures |ls[i]| == 38 {
      RowFields(entries[i]);
    }
    UnlinesBlocks(ls, 38);
  }

  // ---------------------------------------------------------------- replies

  /** The fields of `tgbotapi.MessageConfig` the bot sets. */
  datatype MessageConfig = MessageConfig(text: string, parseMode: string, replyToMessageId: GoInt, chatId: GoInt)

  /** What handling a command ends in: no reply, a reply to send, or a panic from the renderer. */
  datatype Outcome = Silent | Replied(config: MessageConfig) | Panicked

  /** The `start` command's reply. */
  function Start(arguments: seq<string>): (c: MessageConfig)
    ensures |c.text| >= 14 && c.text[..14] == "Welcome home, "
    ensures |arguments| > 0 ==> c.text[14..] == arguments[0]
    ensures |arguments| == 0 ==> c.text[14..] == "Theseus"
    ensures c.parseMode == "" && c.replyToMessageId == 0 && c.chatId == 0
  {
    var name := if |arguments| > 0 then arguments[0] else "Theseus";
    MessageConfig("Welcome home, " + name, "", 0, 0)
  }

  /** The entries a map holds for a period; a missing period reads as an empty list. */
  function Stored(board: map<LeaderboardPeriod, seq<LeaderboardEntry>>, p: LeaderboardPeriod): (es: seq<LeaderboardEntry>)
    ensures p !in board ==> es == []
    ensures p in board ==> es == board[p]
  {
    if p in board then board[p] else []
  }

  /** The `leaderboard` command's outcome over a cache. */
  function LeaderboardReply(board: map<LeaderboardPeriod, seq<LeaderboardEntry>>, arguments: seq<string>): Outcome
  {
    var es := Stored(board, ChoosePeriod(arguments));
    if Fits(es) then Replied(MessageConfig(Table(es), MarkdownV2, 0, 0)) else Panicked
  }

  /** `handleCommand` over a cache: the command's reply, or none for an unknown name. */
  function CommandReply(board: map<LeaderboardPeriod, seq<LeaderboardEntry>>, text: string): Outcome
  {
    var c := ParseCommand(text);
    if c.name == "start" then Replied(Start(c.arguments))
    else if c.name == "leaderboard" then LeaderboardReply(board, c.arguments)
    else Silent
  }

  /** A `start` command always answers, greeting its first argument or Theseus. */
  lemma StartCommand(board: map<LeaderboardPeriod, seq<LeaderboardEntry>>, text: string)
    requires ParseCommand(text).name == "start"
    ensures CommandReply(board, text).Replied?
    ensures CommandReply(board, text).config.text ==
      "Welcome home, " + (if |ParseCommand(text).arguments| > 0 then ParseCommand(text).arguments[0] else "Theseus")
  {
    var c := Start(ParseCommand(text).arguments);
    assert c.text == c.text[..14] + c.text[14..];
  }

  /** A `leaderboard` command renders the chosen period's stored list, or panics when a name is too long. */
  lemma LeaderboardCommand(board: map<LeaderboardPeriod, seq<LeaderboardEntry>>, text: string)
    requires ParseCommand(text).name == "leaderboard"
    ensures var es := Stored(board, ChoosePeriod(ParseCommand(text).arguments));
      CommandReply(board, text) == if Fits(es) then Replied(MessageConfig(Table(es), MarkdownV2, 0, 0)) else Panicked
  {
  }

  /** Only "start" and "leaderboard" answer; every other name is silent. */
  lemma UnknownCommandSilent(board: map<LeaderboardPeriod, seq<LeaderboardEntry>>, text: string)
    ensures CommandReply(board, text).Silent? <==>
      ParseCommand(text).name != "start" && ParseCommand(text).name != "leaderboard"
  {
  }

  /** "/start " splits into the name "start" and one empty argument. */
  lemma ParseTrailingSpace()
    ensures ParseCommand("/start ") == Command("start", [""])
  {
    calc {
      Split("/start ");
    == { assert "/start " == "/start" + " "; SplitWord("/start", " "); }
      ["/start" + Split(" ")[0]] + Split(" ")[1..];
    == { assert Split(" ") == [""] + Split(""); assert Split("") == [""]; assert "/start" + "" == "/start"; }
      ["/start", ""];
    }
    assert TrimSlash("/start") == "start";
  }

  /** So "/start " greets nobody: the first argument is there and empty. */
  lemma StartTrailingSpace(board: map<LeaderboardPeriod, seq<LeaderboardEntry>>)
    ensures CommandReply(board, "/start ") == Replied(MessageConfig("Welcome home, ", "", 0, 0))
  {
    ParseTrailingSpace();
    assert "Welcome home, " + "" == "Welcome home, ";
  }

  /** A period nobody has updated renders exactly like an empty list: the header only. */
  lemma NeverUpdated(board: map<LeaderboardPeriod, seq<LeaderboardEntry>>, arguments: seq<string>)
    requires ChoosePeriod(arguments) !in board
    ensures LeaderboardReply(board, arguments) == Replied(MessageConfig(Fenced(Header), MarkdownV2, 0, 0))
  {
  }

  /** `leaderboard` panics exactly when a stored name of the chosen period is longer than 20 runes. */
  lemma LeaderboardPanics(board: map<LeaderboardPeriod, seq<LeaderboardEntry>>, arguments: seq<string>)
    ensures LeaderboardReply(board, arguments).Panicked? <==>
      exists i :: 0 <= i < |Stored(board, ChoosePeriod(arguments))|
        && |Stored(board, ChoosePeriod(arguments))[i].player| > NameWidth
  {
  }

  // ---------------------------------------------------------------- the cache

  /** One update to the cache: its period gets its list, the other periods keep theirs. */
  function Apply(board: map<LeaderboardPeriod, seq<LeaderboardEntry>>, lu: LeaderboardUpdate): (b: map<LeaderboardPeriod, seq<LeaderboardEntry>>)
    ensures lu.period in b && b[lu.period] == lu.leaderboard
    ensures forall p :: p != lu.period ==> Stored(b, p) == Stored(board, p)
    ensures b.Keys == board.Keys + {lu.period}
  {
    board[lu.period := lu.leaderboard]
  }

  /** Several updates, in order. */
  function Replay(board: map<LeaderboardPeriod, seq<LeaderboardEntry>>, lus: seq<LeaderboardUpdate>): map<LeaderboardPeriod, seq<LeaderboardEntry>>
    decreases |lus|
  {
    if |lus| == 0 then board else Apply(Replay(board, lus[..|lus| - 1]), lus[|lus| - 1])
  }

  /** The last update of a period wins, whatever came before. */
  lemma {:induction false} LastWins(board: map<LeaderboardPeriod, seq<LeaderboardEntry>>, lus: seq<LeaderboardUpdate>, k: nat)
    requires k < |lus|
    requires forall j :: k < j < |lus| ==> lus[j].period != lus[k].period
    ensures Stored(Replay(board, lus), lus[k].period) == lus[k].leaderboard
    decreases |lus|
  {
    if k < |lus| - 1 {
      LastWins(board, lus[..|lus| - 1], k);
    }
  }

  /** A period no update names keeps what it had. */
  lemma {:induction false} UntouchedPeriod(board: map<LeaderboardPeriod, seq<LeaderboardEntry>>, lus: seq<LeaderboardUpdate>, p: LeaderboardPeriod)
    requires forall j :: 0 <= j < |lus| ==> lus[j].period != p
    ensures Stored(Replay(board, lus), p) == Stored(board, p)
    decreases |lus|
  {
    if |lus| > 0 {
      UntouchedPeriod(board, lus[..|lus| - 1], p);
    }
  }

  // ---------------------------------------------------------------- messages

  /** The fields of a `tgbotapi.MessageEntity` used here. */
  datatype Entity = Entity(kind: string)

  /** The fields of a `tgbotapi.Message` used here. */
  datatype TgMessage = TgMessage(messageId: GoInt, chatId: GoInt, text: string, entities: seq<Entity>)

  /** `MessageEntity.IsCommand`. */
  predicate IsCommand(e: Entity)
  {
    e.kind == "bot_command"
  }

  /** `handleMessage` over a cache: a message whose first entity is a command gets the reply, addressed back. */
  function MessageReply(board: map<LeaderboardPeriod, seq<LeaderboardEntry>>, msg: TgMessage): (o: Outcome)
    ensures (|msg.entities| == 0 || !IsCommand(msg.entities[0])) ==> o == Silent
    ensures |msg.entities| != 0 && IsCommand(msg.entities[0]) ==>
      (o.Replied? <==> CommandReply(board, msg.text).Replied?)
      && (o.Panicked? <==> CommandReply(board, msg.text).Panicked?)
      && (o.Silent? <==> CommandReply(board, msg.text).Silent?)
    ensures o.Replied? ==> o.config.replyToMessageId == msg.messageId && o.config.chatId == msg.chatId
    ensures o.Replied? ==>
      CommandReply(board, msg.text).Replied? && o.config.text == CommandReply(board, msg.text).config.text
      && o.config.parseMode == CommandReply(board, msg.text).config.parseMode
  {
    if |msg.entities| != 0 && IsCommand(msg.entities[0]) then
      match CommandReply(board, msg.text)
      case Replied(c) => Replied(c.(replyToMessageId := msg.messageId, chatId := msg.chatId))
      case other => other
    else Silent
  }

  /**
   * The bot's state: the package-level `leaderboard` map, filled by the game
   * client's update handler and read by the `leaderboard` command.
   */
  class Bot {
    var leaderboard: map<LeaderboardPeriod, seq<LeaderboardEntry>>

    constructor ()
      ensures leaderboard == map[]
    {
      leaderboard := map[];
    }

    /** The handler registered for leaderboard updates: replace that period's list. */
    method OnLeaderboardUpdate(lu: LeaderboardUpdate)
      modifies this
      ensures leaderboard == Apply(old(leaderboard), lu)
    {
      leaderboard := leaderboard[lu.period := lu.leaderboard];
    }

    /** The `leaderboard` command: header, then one row per stored entry of the chosen period. */
    method Leaderboard(arguments: seq<string>) returns (o: Outcome)
      ensures o == LeaderboardReply(leaderboard, arguments)
    {
      var typ := AllTimeLeaderboard;
      if |arguments| > 0 {
        if arguments[0] in Periods {
          typ := Periods[arguments[0]];
        }
      }
      var entries := if typ in leaderboard then leaderboard[typ] else [];
      var res := AppendRows(Header, entries);
      if res.None? {
        return Panicked;
      }
      o := Replied(MessageConfig(Fenced(res.value), MarkdownV2, 0, 0));
    }

    /** `handleCommand`: parse, look the name up, run its command. */
    method HandleCommand(text: string) returns (o: Outcome)
      ensures o == CommandReply(leaderboard, text)
    {
      var arguments := Split(text);
      var name := TrimSlash(arguments[0]);
      if name == "start" {
        o := Replied(Start(arguments[1..]));
      } else if name == "leaderboard" {
        o := Leaderboard(arguments[1..]);
      } else {
        o := Silent;
      }
    }

    /** `handleMessage`: commands only; the reply is addressed to the message and its chat. */
    method HandleMessage(msg: TgMessage) returns (o: Outcome)
      ensures o == MessageReply(leaderboard, msg)
    {
      o := Silent;
      if |msg.entities| != 0 && IsCommand(msg.entities[0]) {
        o := HandleCommand(msg.text);
        if o.Replied? {
          o := Replied(o.config.(replyToMessageId := msg.messageId, chatId := msg.chatId));
        }
      }
    }
  }
}
