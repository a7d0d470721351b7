/**
 * The authoritative battle server (server.js): one shared game state with two
 * combatants, a map from connection id to role, and the handlers for
 * connect, attack, reset_game and disconnect.
 *
 * Every random draw of the server (Math.random) is a parameter of the handler
 * whose precondition is the range the draw is taken from.  Socket fan-out is
 * not modelled; an event the server would broadcast is returned instead.
 */
module Battle {
  import opened Wrappers

  /** The role a connection is given when it connects. */
  datatype Role = Hero | Enemy | Spectator

  /** One of the two combat sides; `turn` always holds one of these. */
  type Side = r: Role | r != Spectator witness Hero

  /** The transport's id of a connection (socket.id). */
  type ConnId = string

  function Opponent(side: Side): (o: Side)
    ensures o != side
  {
    if side == Hero then Enemy else Hero
  }

  /** One combatant record of the game state. */
  datatype Combatant = Combatant(hp: int, max: int, ac: int, name: string, dmgDie: int, dmgMod: int)

  /** The shared game state.  (The template's always-empty `logs` list is not modelled.) */
  datatype GameState = GameState(hero: Combatant, enemy: Combatant, turn: Side, gameOver: bool)

  function Get(s: GameState, side: Side): Combatant {
    if side == Hero then s.hero else s.enemy
  }

  function Put(s: GameState, side: Side, c: Combatant): (r: GameState)
    ensures Get(r, side) == c && Get(r, Opponent(side)) == Get(s, Opponent(side))
    ensures r.turn == s.turn && r.gameOver == s.gameOver
  {
    if side == Hero then s.(hero := c) else s.(enemy := c)
  }

  /** The attack bonus is a constant +3 for both sides, whatever the attacker's record says. */
  const AttackBonus := 3

  /** INITIAL_STATE: the Warrior against the Ogre, hero to move. */
  function Initial(): GameState {
    GameState(
      Combatant(50, 50, 15, "Warrior", 8, 2),
      Combatant(45, 45, 12, "Ogre", 6, 2),
      Hero,
      false)
  }

  /** A combatant whose hit points lie in [0, max] and whose damage rolls are never negative. */
  predicate WellFormed(c: Combatant) {
    0 <= c.hp <= c.max && 1 <= c.dmgDie && 0 <= c.dmgMod
  }

  /**
   * The invariant of the shared state: both records well formed, the side to
   * move is alive, and the game is over exactly when the other side is at 0 hp.
   */
  predicate Consistent(s: GameState) {
    && WellFormed(s.hero)
    && WellFormed(s.enemy)
    && Get(s, s.turn).hp > 0
    && (s.gameOver <==> Get(s, Opponent(s.turn)).hp == 0)
  }

  lemma InitialIsConsistent()
    ensures Consistent(Initial())
    ensures Initial().hero.hp == Initial().hero.max == 50
    ensures Initial().enemy.hp == Initial().enemy.max == 45
    ensures Initial().turn == Hero && !Initial().gameOver
  {
  }

  // ---------------------------------------------------------------------------
  // Role assignment

  /** At most one connection holds `hero` and at most one holds `enemy`. */
  predicate SeatsUnique(players: map<ConnId, Role>) {
    forall a, b :: a in players && b in players && players[a] == players[b] && players[a] != Spectator ==> a == b
  }

  /** The role a new connection gets: the first of `hero`, `enemy` that no entry holds, else `spectator`. */
  function AssignRole(players: map<ConnId, Role>): (r: Role)
    ensures r == Hero <==> forall id :: id in players ==> players[id] != Hero
    ensures r == Enemy <==>
      (exists id :: id in players && players[id] == Hero) && (forall id :: id in players ==> players[id] != Enemy)
    ensures r == Spectator <==>
      (exists id :: id in players && players[id] == Hero) && (exists id :: id in players && players[id] == Enemy)
  {
    if Hero !in players.Values then Hero
    else if Enemy !in players.Values then Enemy
    else Spectator
  }

  lemma ConnectKeepsSeatsUnique(players: map<ConnId, Role>, id: ConnId)
    requires SeatsUnique(players)
    ensures SeatsUnique(players[id := AssignRole(players)])
  {
  }

  lemma DisconnectKeepsSeatsUnique(players: map<ConnId, Role>, id: ConnId)
    requires SeatsUnique(players)
    ensures SeatsUnique(players - {id})
  {
  }

  // ---------------------------------------------------------------------------
  // Attack resolution

  datatype HitRoll = HitRoll(hit: bool, crit: bool)

  /** The d20 to-hit roll against armour class `ac`: a natural 20 is a critical and always hits. */
  function RollToHit(d20: int, ac: int): (h: HitRoll)
    requires 1 <= d20 <= 20
    ensures h.crit <==> d20 == 20
    ensures h.crit ==> h.hit
    ensures h.hit <==> h.crit || d20 + AttackBonus >= ac
    ensures ac <= 1 + AttackBonus ==> h.hit
    ensures ac > 19 + AttackBonus ==> (h.hit <==> h.crit)
  {
    var crit := d20 == 20;
    HitRoll(crit || d20 + AttackBonus >= ac, crit)
  }

  /** A higher roll hits whenever a lower one does. */
  lemma HitIsMonotone(d: int, e: int, ac: int)
    requires 1 <= d <= e <= 20
    requires RollToHit(d, ac).hit
    ensures RollToHit(e, ac).hit
  {
  }

  /**
   * Damage of a hit: one die draw `r1` plus the modifier, and on a critical a
   * second draw `r2`.  Each draw is `floor(random * die) + 1`, so lies in [1, die].
   */
  function RollDamage(die: int, mod: int, crit: bool, r1: int, r2: int): (d: int)
    requires 1 <= r1 <= die && 1 <= r2 <= die
    ensures !crit ==> 1 + mod <= d <= die + mod
    ensures crit ==> 2 + mod <= d <= 2 * die + mod
  {
    var base := r1 + mod;
    if crit then base + r2 else base
  }

  /** The target's hit points after taking `dmg`: hp - dmg, but never below 0. */
  function ApplyDamage(hp: int, dmg: int): (h: int)
    ensures h >= 0
    ensures h == 0 <==> dmg >= hp
    ensures h > 0 ==> h == hp - dmg
    ensures 0 <= dmg ==> h <= hp || h == 0
    ensures 0 <= hp && 0 <= dmg ==> h <= hp
  {
    if hp - dmg > 0 then hp - dmg else 0
  }

  /** The text of the broadcast log line, kept as structured data. */
  datatype LogMsg = Hits(attackerName: string, damage: int) | Missed(attackerName: string, roll: int) | Defeated(targetName: string)
  datatype Log = Log(msg: LogMsg, color: string)

  /** The `action` part of the `game_update` event that follows an attack. */
  datatype Action = Action(attacker: Side, roll: int, damage: int, isHit: bool, isCrit: bool, log: Log)

  datatype Update = Update(state: GameState, action: Action)

  /** The draws an attack by `side` takes: a d20 and two rolls of its damage die. */
  predicate DiceFor(s: GameState, side: Side, d20: int, r1: int, r2: int) {
    1 <= d20 <= 20 && 1 <= r1 <= Get(s, side).dmgDie && 1 <= r2 <= Get(s, side).dmgDie
  }

  /**
   * What an attack by `attacker` does once the turn check has passed: the
   * to-hit roll, the damage, the clamped hit points, then either game over
   * (turn unchanged) or the turn passing to the target.
   */
  function Strike(s: GameState, attacker: Side, d20: int, r1: int, r2: int): (u: Update)
    requires DiceFor(s, attacker, d20, r1, r2)
    ensures u.action.attacker == attacker && u.action.roll == d20
    ensures u.action.isCrit <==> d20 == 20
    ensures u.action.isHit <==> d20 == 20 || d20 + AttackBonus >= Get(s, Opponent(attacker)).ac
    ensures !u.action.isHit ==> u.action.damage == 0
    ensures u.action.isHit && !u.action.isCrit ==>
      1 + Get(s, attacker).dmgMod <= u.action.damage <= Get(s, attacker).dmgDie + Get(s, attacker).dmgMod
    ensures u.action.isCrit ==>
      2 + Get(s, attacker).dmgMod <= u.action.damage <= 2 * Get(s, attacker).dmgDie + Get(s, attacker).dmgMod
    // only the target's hit points change, and only on a hit
    ensures Get(u.state, attacker) == Get(s, attacker)
    ensures u.action.isHit ==>
      Get(u.state, Opponent(attacker)) == Get(s, Opponent(attacker)).(hp := ApplyDamage(Get(s, Opponent(attacker)).hp, u.action.damage))
    ensures !u.action.isHit ==> Get(u.state, Opponent(attacker)) == Get(s, Opponent(attacker))
    // the two outcomes
    ensures Get(u.state, Opponent(attacker)).hp <= 0 ==>
      u.state.gameOver && u.state.turn == s.turn && u.action.log == Log(Defeated(Get(s, Opponent(attacker)).name), "text-yellow-400")
    ensures Get(u.state, Opponent(attacker)).hp > 0 ==>
      u.state.gameOver == s.gameOver && u.state.turn == Opponent(attacker)
    ensures Get(u.state, Opponent(attacker)).hp > 0 && u.action.isHit ==>
      u.action.log == Log(Hits(Get(s, attacker).name, u.action.damage), "text-red-400")
    ensures Get(u.state, Opponent(attacker)).hp > 0 && !u.action.isHit ==>
      u.action.log == Log(Missed(Get(s, attacker).name, d20), "text-slate-400")
  {
    var a := Get(s, attacker);
    var targetKey := Opponent(attacker);
    var t := Get(s, targetKey);
    var h := RollToHit(d20, t.ac);
    var damage := if h.hit then RollDamage(a.dmgDie, a.dmgMod, h.crit, r1, r2) else 0;
    var s1 := if h.hit then Put(s, targetKey, t.(hp := ApplyDamage(t.hp, damage))) else s;
    var action := Action(attacker, d20, damage, h.hit, h.crit,
      if h.hit then Log(Hits(a.name, damage), "text-red-400") else Log(Missed(a.name, d20), "text-slate-400"));
    if Get(s1, targetKey).hp <= 0 then
      Update(s1.(gameOver := true), action.(log := Log(Defeated(t.name), "text-yellow-400")))
    else
      Update(s1.(turn := targetKey), action)
  }

  /**
   * An attack by the side to move in a running game keeps the invariant,
   * never raises the target's hit points, and has exactly one of two
   * outcomes: the game ends with the turn unchanged, or the turn flips.
   */
  lemma StrikeKeepsConsistent(s: GameState, d20: int, r1: int, r2: int)
    requires Consistent(s) && !s.gameOver
    requires DiceFor(s, s.turn, d20, r1, r2)
    ensures var u := Strike(s, s.turn, d20, r1, r2);
      && Consistent(u.state)
      && Get(u.state, Opponent(s.turn)).hp <= Get(s, Opponent(s.turn)).hp
      && (u.state.gameOver != (u.state.turn != s.turn))
      && (u.state.gameOver <==> Get(u.state, Opponent(s.turn)).hp == 0)
  {
  }

  /** With one hit point left, any hit ends the game with the hero at 0 and the turn still the enemy's. */
  lemma FinishingBlow(s: GameState, d20: int, r1: int, r2: int)
    requires Consistent(s) && !s.gameOver && s.turn == Enemy && s.hero.hp == 1
    requires DiceFor(s, Enemy, d20, r1, r2) && RollToHit(d20, s.hero.ac).hit
    ensures var u := Strike(s, Enemy, d20, r1, r2);
      u.state.gameOver && u.state.hero.hp == 0 && u.state.turn == Enemy
  {
  }

  // ---------------------------------------------------------------------------
  // The server

  class Server {
    /** gameState: replaced wholesale by reset_game, updated field by field by attack. */
    var state: GameState
    /** players: connection id to the role assigned on connect. */
    var players: map<ConnId, Role>

    ghost predicate Valid()
      reads this
    {
      Consistent(state) && SeatsUnique(players)
    }

    /** Process start: a deep copy of INITIAL_STATE and no connections. */
    constructor ()
      ensures Valid()
      ensures state == Initial() && players == map[]
    {
      state := Initial();
      players := map[];
    }

    /**
     * A new connection is assigned the first free role and sent its role and
     * the current state (`welcome`).  The returned role is the one the
     * connection's handlers keep for the rest of its life.
     */
    method Connect(id: ConnId) returns (role: Role, welcome: GameState)
      requires Valid()
      modifies this
      ensures Valid()
      ensures role == AssignRole(old(players))
      ensures players == old(players)[id := role]
      ensures state == old(state) && welcome == state
    {
      role := AssignRole(players);
      ConnectKeepsSeatsUnique(players, id);
      players := players[id := role];
      welcome := state;
    }

    /**
     * The `attack` handler of live connection `id`, which reads the role it
     * was given at connect time; that role is still the connection's entry,
     * since an entry is only written on connect and deleted on disconnect.
     * It is dropped unless that role is the side to move and the game is
     * running; otherwise the target's hit points, then `gameOver` or `turn`,
     * are updated in place and the `game_update` action is returned.
     */
    method Attack(ghost id: ConnId, role: Role, d20: int, r1: int, r2: int) returns (update: Option<Action>)
      requires Valid()
      requires id in players && players[id] == role
      requires 1 <= d20 <= 20
      requires role != Spectator ==> DiceFor(state, role, d20, r1, r2)
      modifies this
      ensures Valid() && players == old(players)
      ensures role != old(state).turn || old(state).gameOver ==> update == None && state == old(state)
      ensures role == Spectator ==> update == None && state == old(state)
      ensures role == old(state).turn && !old(state).gameOver ==>
        var u := Strike(old(state), role, d20, r1, r2);
        update == Some(u.action) && state == u.state
    {
      if role != state.turn {
        return None;
      }
      if state.gameOver {
        return None;
      }
      ghost var s0 := state;
      StrikeKeepsConsistent(s0, d20, r1, r2);
      var attackerKey: Side := role;
      var targetKey := Opponent(attackerKey);
      var attacker := Get(state, attackerKey);
      var target := Get(state, targetKey);

      var h := RollToHit(d20, target.ac);
      var damage := 0;
      var log: Log;
      if h.hit {
        damage := RollDamage(attacker.dmgDie, attacker.dmgMod, h.crit, r1, r2);
        state := Put(state, targetKey, target.(hp := ApplyDamage(target.hp, damage)));
        log := Log(Hits(attacker.name, damage), "text-red-400");
      } else {
        log := Log(Missed(attacker.name, d20), "text-slate-400");
      }

      if Get(state, targetKey).hp <= 0 {
        state := state.(gameOver := true);
        log := Log(Defeated(target.name), "text-yellow-400");
      } else {
        state := state.(turn := targetKey);
      }
      update := Some(Action(attackerKey, d20, damage, h.hit, h.crit, log));
    }

    /** `reset_game`, accepted from any role: the state becomes INITIAL_STATE again; roles are kept. */
    method Reset()
      requires Valid()
      modifies this
      ensures Valid()
      ensures state == Initial() && players == old(players)
    {
      InitialIsConsistent();
      state := Initial();
    }

    /** `disconnect`: the connection's entry is deleted; the state is untouched. */
    method Disconnect(id: ConnId)
      requires Valid()
      modifies this
      ensures Valid()
      ensures players == old(players) - {id}
      ensures state == old(state)
    {
      DisconnectKeepsSeatsUnique(players, id);
      players := players - {id};
    }
  }

  /** A client of the server's contracts: three connections, a dropped attack, a seat reused. */
  method ThreeConnections()
  {
    var server := new Server();
    var a, _ := server.Connect("a");
    assert server.players["a"] == a == Hero;
    var b, _ := server.Connect("b");
    assert server.players["a"] == Hero && server.players["b"] == b == Enemy;
    var c, _ := server.Connect("c");
    assert c == Spectator;

    var u := server.Attack("c", c, 20, 1, 1);
    assert u == None && server.state == Initial();

    server.Disconnect("a");
    assert server.players == map["b" := Enemy, "c" := Spectator];
    var d, _ := server.Connect("d");
    assert d == Hero;
  }

  /** The opening move of a fresh game with a natural 20 and two top damage rolls: 8 + 2 + 8 damage. */
  lemma CriticalOpening()
    ensures var u := Strike(Initial(), Hero, 20, 8, 8);
      && u.action.isCrit && u.action.damage == 18
      && u.state.enemy.hp == 27 && u.state.turn == Enemy && !u.state.gameOver
  {
  }
}
