/**
 * The bot-secrets screen under answers that arrive late and in any order
 * (apps/web/src/secrets.ts). A row carries the bot it was read for.
 *
 * Every await is a point where any other request may start or settle: an action is what runs
 * between two of them. `generation` is the counter the reads carry.
 */
module Secrets {
  import opened ByteStreams

  datatype Status = Loading | Ready | Refused

  datatype Secret = Secret(botId: string, name: string)

  datatype Screen = Screen(status: Status, bots: seq<string>, selectedBotId: Option<string>, secrets: seq<Secret>, pending: Option<string>)

  /** A read under way: one bot's list, the bots of a reload, or the list a reload goes on with. */
  datatype Read = OfBot(mine: nat, botId: string) | OfBots(mine: nat) | OfReload(mine: nat, botId: string)

  /** A write under way, for the bot that was selected when it began. */
  datatype Write = Write(botId: string)

  datatype State = State(screen: Screen, generation: nat, asked: set<Read>, writes: multiset<Write>)

  const START := State(Screen(Loading, [], None, [], None), 0, {}, multiset{})

  datatype Answer<T> = Answered(value: T) | Threw

  datatype Action =
    | Load
    | SelectBot(botId: string)
    | BeginWrite(what: string)
    | EndWrite(write: Write, succeeded: bool)
    | SettleBot(read: Read, names: Answer<seq<string>>)
    | SettleBots(read: Read, bots: Answer<seq<string>>)
    | SettleReload(read: Read, names: Answer<seq<string>>)

  function Rows(botId: string, names: seq<string>): seq<Secret> {
    seq(|names|, i requires 0 <= i < |names| => Secret(botId, names[i]))
  }

  /** `readSecrets`, up to its await. */
  function Asking(s: State, botId: string): State {
    var mine := s.generation + 1;
    s.(generation := mine, asked := s.asked + {OfBot(mine, botId)}, screen := s.screen.(pending := Some(botId)))
  }

  /** One action; None when the read or write it settles is not under way. A late answer of an
      overtaken read changes nothing. */
  function Act(s: State, a: Action): Option<State> {
    match a
    case Load =>
      Some(s.(generation := s.generation + 1, asked := s.asked + {OfBots(s.generation + 1)}, screen := s.screen.(status := Loading)))
    case SelectBot(botId) =>
      Some(if s.screen.selectedBotId == Some(botId) then s
           else Asking(s.(screen := s.screen.(status := Ready, secrets := [])), botId))
    case BeginWrite(what) =>
      Some(if s.screen.selectedBotId.None? then s
           else s.(screen := s.screen.(pending := Some(what)), writes := s.writes + multiset{Write(s.screen.selectedBotId.value)}))
    case EndWrite(write, succeeded) =>
      if write !in s.writes then None
      else
        var t := s.(screen := s.screen.(pending := None), writes := s.writes - multiset{write});
        Some(if succeeded then Asking(t, write.botId) else t)
    case SettleBot(read, names) =>
      if read !in s.asked || !read.OfBot? then None
      else
        var t := s.(asked := s.asked - {read});
        Some(if read.mine != s.generation then t
             else
               match names
               case Threw => t.(screen := s.screen.(status := Refused, pending := None))
               case Answered(value) => t.(screen := s.screen.(status := Ready, selectedBotId := Some(read.botId), secrets := Rows(read.botId, value), pending := None)))
    case SettleBots(read, bots) =>
      if read !in s.asked || !read.OfBots? then None
      else
        var t := s.(asked := s.asked - {read});
        Some(if read.mine != s.generation then t
             else
               match bots
               case Threw => t.(screen := s.screen.(status := Refused))
               case Answered(value) =>
                 if value == [] then t.(screen := s.screen.(status := Ready, bots := value, selectedBotId := None, secrets := []))
                 else
                   var selected := if s.screen.selectedBotId.Some? && s.screen.selectedBotId.value in value then s.screen.selectedBotId.value else value[0];
                   t.(screen := s.screen.(bots := value, selectedBotId := Some(selected)), asked := t.asked + {OfReload(read.mine, selected)}))
    case SettleReload(read, names) =>
      if read !in s.asked || !read.OfReload? then None
      else
        var t := s.(asked := s.asked - {read});
        Some(if read.mine != s.generation then t
             else
               match names
               case Threw => t.(screen := s.screen.(status := Refused))
               case Answered(value) => t.(screen := s.screen.(status := Ready, secrets := Rows(read.botId, value))))
  }

  /**
   * The controller itself. Each method is what one of the source's functions runs up to its
   * await, or from it on; `asked` and `writes` record what is under way.
   */
  class SecretsController {
    var state: Screen
    var generation: nat
    ghost var asked: set<Read>
    ghost var writes: multiset<Write>

    constructor ()
      ensures Now() == START
    {
      state, generation := Screen(Loading, [], None, [], None), 0;
      asked, writes := {}, multiset{};
    }

    ghost function Now(): State
      reads this
    {
      State(state, generation, asked, writes)
    }

    method ReadSecrets(botId: string)
      modifies this
      ensures Now() == Asking(old(Now()), botId)
    {
      generation := generation + 1;
      state := state.(pending := Some(botId));
      asked := asked + {OfBot(generation, botId)};
    }

    method Load()
      modifies this
      ensures Act(old(Now()), Action.Load) == Some(Now())
    {
      generation := generation + 1;
      state := state.(status := Loading);
      asked := asked + {OfBots(generation)};
    }

    method SelectBot(botId: string)
      modifies this
      ensures Act(old(Now()), Action.SelectBot(botId)) == Some(Now())
    {
      if state.selectedBotId != Some(botId) {
        state := state.(status := Ready, secrets := []);
        ReadSecrets(botId);
      }
    }

    /** `store` and `forget` up to the write. */
    method BeginWrite(what: string)
      modifies this
      ensures Act(old(Now()), Action.BeginWrite(what)) == Some(Now())
    {
      if state.selectedBotId.Some? {
        state := state.(pending := Some(what));
        writes := writes + multiset{Write(state.selectedBotId.value)};
      }
    }

    method EndWrite(botId: string, succeeded: bool)
      requires Write(botId) in writes
      modifies this
      ensures Act(old(Now()), Action.EndWrite(Write(botId), succeeded)) == Some(Now())
    {
      state := state.(pending := None);
      writes := writes - multiset{Write(botId)};
      if succeeded {
        ReadSecrets(botId);
      }
    }

    method OnSecrets(mine: nat, botId: string, names: Answer<seq<string>>)
      requires OfBot(mine, botId) in asked
      modifies this
      ensures Act(old(Now()), SettleBot(OfBot(mine, botId), names)) == Some(Now())
    {
      asked := asked - {OfBot(mine, botId)};
      if mine == generation {
        match names
        case Threw => state := state.(status := Refused, pending := None);
        case Answered(value) => state := state.(status := Ready, selectedBotId := Some(botId), secrets := Rows(botId, value), pending := None);
      }
    }

    method OnBots(mine: nat, bots: Answer<seq<string>>)
      requires OfBots(mine) in asked
      modifies this
      ensures Act(old(Now()), SettleBots(OfBots(mine), bots)) == Some(Now())
    {
      asked := asked - {OfBots(mine)};
      if mine != generation {
        return;
      }
      if bots.Threw? {
        state := state.(status := Refused);
        return;
      }
      if bots.value == [] {
        state := state.(status := Ready, bots := [], selectedBotId := None, secrets := []);
        return;
      }
      var selected := if state.selectedBotId.Some? && state.selectedBotId.value in bots.value then state.selectedBotId.value else bots.value[0];
      state := state.(bots := bots.value, selectedBotId := Some(selected));
      asked := asked + {OfReload(mine, selected)};
    }

    method OnReload(mine: nat, botId: string, names: Answer<seq<string>>)
      requires OfReload(mine, botId) in asked
      modifies this
      ensures Act(old(Now()), SettleReload(OfReload(mine, botId), names)) == Some(Now())
    {
      asked := asked - {OfReload(mine, botId)};
      if mine == generation {
        match names
        case Threw => state := state.(status := Refused);
        case Answered(value) => state := state.(status := Ready, secrets := Rows(botId, value));
      }
    }
  }

  function Reached(run: seq<Action>): Option<State>
    decreases |run|
  {
    if run == [] then Some(START)
    else
      match Reached(run[..|run| - 1])
      case None => None
      case Some(s) => Act(s, run[|run| - 1])
  }

  /** The rows on a ready screen all belong to the bot it names. */
  ghost predicate RowsBelong(screen: Screen) {
    screen.status == Ready ==> forall row :: row in screen.secrets ==> Some(row.botId) == screen.selectedBotId
  }

  /** No two reads share a number, and none is ahead of the counter. */
  ghost predicate Numbered(asked: set<Read>, generation: nat) {
    && (forall r :: r in asked ==> r.mine <= generation)
    && (forall r, q :: r in asked && q in asked && r.mine == q.mine ==> r == q)
  }

  /** While a reload is the newest read the screen is loading, and its list is the selected bot's. */
  ghost predicate Reloading(s: State) {
    forall r :: r in s.asked && !r.OfBot? && r.mine == s.generation ==>
      s.screen.status == Loading && (r.OfReload? ==> s.screen.selectedBotId == Some(r.botId))
  }

  ghost predicate Inv(s: State) {
    RowsBelong(s.screen) && Numbered(s.asked, s.generation) && Reloading(s)
  }

  lemma AskKeeps(asked: set<Read>, generation: nat, read: Read)
    requires Numbered(asked, generation) && read.mine == generation + 1
    ensures Numbered(asked + {read}, generation + 1)
  {
  }

  lemma ReadKeeps(s: State, botId: string)
    requires RowsBelong(s.screen) && Numbered(s.asked, s.generation)
    ensures Inv(Asking(s, botId))
  {
  }

  lemma RequestKeeps(s: State, a: Action)
    requires Inv(s) && Act(s, a).Some? && (a.Load? || a.SelectBot? || a.BeginWrite? || a.EndWrite?)
    ensures Inv(Act(s, a).value)
  {
    match a
    case Load => AskKeeps(s.asked, s.generation, OfBots(s.generation + 1));
    case SelectBot(botId) => ReadKeeps(s.(screen := s.screen.(status := Ready, secrets := [])), botId);
    case EndWrite(write, succeeded) =>
      var t := s.(screen := s.screen.(pending := None), writes := s.writes - multiset{write});
      assert Inv(t);
      ReadKeeps(t, write.botId);
    case BeginWrite(_) =>
  }

  lemma BotsKeep(s: State, read: Read, bots: Answer<seq<string>>)
    requires Inv(s) && Act(s, SettleBots(read, bots)).Some?
    ensures Inv(Act(s, SettleBots(read, bots)).value)
  {
  }

  lemma BotKeeps(s: State, read: Read, names: Answer<seq<string>>)
    requires Inv(s) && Act(s, SettleBot(read, names)).Some?
    ensures Inv(Act(s, SettleBot(read, names)).value)
  {
  }

  lemma ReloadKeeps(s: State, read: Read, names: Answer<seq<string>>)
    requires Inv(s) && Act(s, SettleReload(read, names)).Some?
    ensures Inv(Act(s, SettleReload(read, names)).value)
  {
  }

  lemma ActKeeps(s: State, a: Action)
    requires Inv(s) && Act(s, a).Some?
    ensures Inv(Act(s, a).value)
  {
    match a
    case SettleBots(read, bots) => BotsKeep(s, read, bots);
    case SettleBot(read, names) => BotKeeps(s, read, names);
    case SettleReload(read, names) => ReloadKeeps(s, read, names);
    case _ => RequestKeeps(s, a);
  }

  lemma {:induction false} EveryScreenIsSound(run: seq<Action>)
    requires Reached(run).Some?
    ensures Inv(Reached(run).value)
    decreases |run|
  {
    if run != [] {
      EveryScreenIsSound(run[..|run| - 1]);
      ActKeeps(Reached(run[..|run| - 1]).value, run[|run| - 1]);
    }
  }

  /** Whatever the order of the answers, a ready screen shows no row or the selected bot's. */
  lemma ReadyRowsAreTheSelectedBots(run: seq<Action>)
    requires Reached(run).Some? && Reached(run).value.screen.status == Ready
    ensures var screen := Reached(run).value.screen;
            screen.secrets == [] || (screen.selectedBotId.Some? && forall row :: row in screen.secrets ==> row.botId == screen.selectedBotId.value)
  {
    EveryScreenIsSound(run);
    var screen := Reached(run).value.screen;
    if screen.secrets != [] {
      assert screen.secrets[0] in screen.secrets;
    }
  }

  /** An answer lands exactly when no later read has begun. */
  lemma OnlyTheNewestReadLands(s: State, read: Read, names: Answer<seq<string>>)
    requires read in s.asked && read.OfBot? && names.Answered?
    ensures var t := Act(s, SettleBot(read, names)).value.screen;
            && (read.mine == s.generation ==> t.status == Ready && t.selectedBotId == Some(read.botId) && t.secrets == Rows(read.botId, names.value))
            && (read.mine != s.generation ==> t == s.screen)
  {
  }

  lemma OneMore(run: seq<Action>, a: Action, s: State)
    requires Reached(run) == Some(s)
    ensures Reached(run + [a]) == Act(s, a)
  {
  }

  /** A write that settles while a selection is being read takes the screen back: its own
      re-read overtakes the operator's choice, whose answer is then dropped. */
  lemma WriteUndoesSelection(s: State, chosen: string, names: seq<string>)
    requires Inv(s) && s.screen.selectedBotId.Some? && s.screen.selectedBotId.value != chosen && Write(s.screen.selectedBotId.value) in s.writes
    ensures var before := s.screen.selectedBotId.value;
            var selecting := Act(s, SelectBot(chosen)).value;
            var written := Act(selecting, EndWrite(Write(before), true)).value;
            var late := Act(written, SettleBot(OfBot(selecting.generation, chosen), Answered(names)));
            late.Some? && late.value.screen == written.screen && late.value.screen.selectedBotId == Some(before) && late.value.screen.secrets == []
            && OfBot(late.value.generation, before) in late.value.asked
  {
  }

  // ---- what each action leaves on the screen ----

  /** What the screen waits for: the bot of the newest list asked for on its own, or the write begun
      since; a write's end and the newest read's answer clear it, and nothing else touches it. */
  lemma PendingIs(s: State, a: Action)
    requires Act(s, a).Some?
    ensures Act(s, a).value.screen.pending ==
            match a
            case SelectBot(botId) => if s.screen.selectedBotId != Some(botId) then Some(botId) else s.screen.pending
            case BeginWrite(what) => if s.screen.selectedBotId.Some? then Some(what) else s.screen.pending
            case EndWrite(write, succeeded) => if succeeded then Some(write.botId) else None
            case SettleBot(read, _) => if read.mine == s.generation then None else s.screen.pending
            case _ => s.screen.pending
  {
  }

  /** A load, a selection and a write that succeeded each ask once, under a number of their own;
      nothing else takes a number. */
  lemma ReadsAreNumbered(s: State, a: Action)
    requires Act(s, a).Some? && !a.SettleBots?
    ensures var t := Act(s, a).value; var next := s.generation + 1;
            match a
            case Load => t.generation == next && t.asked == s.asked + {OfBots(next)}
            case SelectBot(botId) =>
              if s.screen.selectedBotId == Some(botId) then t == s else t.generation == next && t.asked == s.asked + {OfBot(next, botId)}
            case EndWrite(write, true) => t.generation == next && t.asked == s.asked + {OfBot(next, write.botId)}
            case SettleBot(read, _) => t.generation == s.generation && read in s.asked && t.asked == s.asked - {read}
            case SettleReload(read, _) => t.generation == s.generation && read in s.asked && t.asked == s.asked - {read}
            case _ => t.generation == s.generation && t.asked == s.asked
  {
  }

  /** A write is under way from its beginning to its end, for the bot selected when it began. */
  lemma WritesAreUnderWay(s: State, a: Action)
    requires Act(s, a).Some?
    ensures var t := Act(s, a).value;
            match a
            case BeginWrite(_) => t.writes == s.writes + (if s.screen.selectedBotId.Some? then multiset{Write(s.screen.selectedBotId.value)} else multiset{})
            case EndWrite(write, _) => write in s.writes && t.writes == s.writes - multiset{write}
            case _ => t.writes == s.writes
  {
  }

  /** The newest reload's list of bots keeps the selection it finds and replaces one it does not
      with the first bot; with none there is no selection. */
  lemma ReloadKeepsAListedSelection(s: State, mine: nat, bots: seq<string>)
    requires mine == s.generation && Act(s, SettleBots(OfBots(mine), Answered(bots))).Some?
    ensures var t := Act(s, SettleBots(OfBots(mine), Answered(bots))).value;
            && t.screen.bots == bots
            && (forall b :: b in bots && s.screen.selectedBotId == Some(b) ==> t.screen.selectedBotId == Some(b))
            && (bots != [] && (s.screen.selectedBotId.None? || s.screen.selectedBotId.value !in bots) ==> t.screen.selectedBotId == Some(bots[0]))
            && (bots == [] ==> t.screen.selectedBotId.None? && t.screen.secrets == [] && t.screen.status == Ready && t.asked == s.asked - {OfBots(mine)})
            && (bots != [] ==> t.screen.selectedBotId.Some? && t.screen.selectedBotId.value in bots
                               && t.asked == s.asked - {OfBots(mine)} + {OfReload(mine, t.screen.selectedBotId.value)})
  {
  }
}
