/** The mediator between players and buildings: a registry of players by token
    and of buildings by name, and the property-for-property trade. */
module GameControllers {
  import opened PropertyLists
  import opened Players
  import opened Buildings

  /** What a trade reports; only `Traded` changes anything. */
  datatype TradeOutcome =
    | Traded
    | InvalidPlayerOrBuilding  // a token or a name is not registered
    | OwnershipMismatch        // a side does not own the building it offers
    | SelfTrade                // both sides are the same player (corrected trade only)

  class GameController {
    var players: map<string, Player>
    var buildings: map<string, Building>

    /** Each registry is keyed by the token or name of the entity it holds. */
    ghost predicate Valid()
      reads this
    {
      && (forall t :: t in players ==> players[t].token == t)
      && (forall n :: n in buildings ==> buildings[n].name == n)
    }

    /** Owner tokens and owned lists agree: a registered player lists a registered
        building exactly when the building names that player as owner. */
    ghost predicate Consistent()
      reads this, players.Values, buildings.Values
    {
      forall t, n :: t in players && n in buildings ==>
        (buildings[n].ownerToken == t <==> n in players[t].ownedBuildings)
    }

    /** All four names of a trade are registered. */
    ghost predicate Found(fromToken: string, giveName: string, toToken: string, receiveName: string)
      reads this
    {
      fromToken in players && toToken in players && giveName in buildings && receiveName in buildings
    }

    constructor ()
      ensures Valid() && players == map[] && buildings == map[]
    {
      players := map[];
      buildings := map[];
    }

    /** Registers a player under its token; a second player with that token replaces the first. */
    method AddPlayer(p: Player)
      requires Valid()
      modifies this`players
      ensures Valid()
      ensures players == old(players)[p.token := p]
      ensures GetPlayer(p.token) == p
      ensures forall t :: t != p.token ==> GetPlayer(t) == old(GetPlayer(t))
    {
      players := players[p.token := p];
    }

    /** Registers a building under its name; a second building with that name replaces the first. */
    method AddBuilding(b: Building)
      requires Valid()
      modifies this`buildings
      ensures Valid()
      ensures buildings == old(buildings)[b.name := b]
      ensures GetBuilding(b.name) == b
      ensures forall n :: n != b.name ==> GetBuilding(n) == old(GetBuilding(n))
    {
      buildings := buildings[b.name := b];
    }

    /** The player registered under a token, or null for an unknown token. */
    function GetPlayer(token: string): (p: Player?)
      reads this
      ensures p == null <==> token !in players
      ensures p != null ==> p == players[token]
    {
      if token in players then players[token] else null
    }

    /** The building registered under a name, or null for an unknown name. */
    function GetBuilding(name: string): (b: Building?)
      reads this
      ensures b == null <==> name !in buildings
      ensures b != null ==> b == buildings[name]
    {
      if name in buildings then buildings[name] else null
    }

    /** The trade as the game has it: after the lookups and the ownership check,
        the two owner tokens are swapped and both lists are edited in turn, even
        when both sides are the same player. */
    method TradeAsWritten(fromToken: string, giveName: string, toToken: string, receiveName: string)
      returns (outcome: TradeOutcome)
      requires Valid()
      modifies players.Values, buildings.Values
      ensures outcome != SelfTrade
      ensures outcome == InvalidPlayerOrBuilding <==> !Found(fromToken, giveName, toToken, receiveName)
      ensures outcome == OwnershipMismatch <==>
                Found(fromToken, giveName, toToken, receiveName) &&
                (old(buildings[giveName].ownerToken) != fromToken || old(buildings[receiveName].ownerToken) != toToken)
      ensures outcome != Traded ==>
                (forall p :: p in players.Values ==> unchanged(p)) && (forall b :: b in buildings.Values ==> unchanged(b))
      ensures outcome == Traded ==>
                buildings[giveName].ownerToken == toToken && buildings[receiveName].ownerToken == fromToken
      ensures outcome == Traded && fromToken != toToken ==>
                && players[fromToken].ownedBuildings == Without(old(players[fromToken].ownedBuildings), giveName) + [receiveName]
                && players[toToken].ownedBuildings == Without(old(players[toToken].ownedBuildings), receiveName) + [giveName]
      ensures outcome == Traded && fromToken == toToken ==>
                players[fromToken].ownedBuildings ==
                  Without(Without(old(players[fromToken].ownedBuildings), giveName) + [receiveName], receiveName) + [giveName]
      ensures forall t :: t in players && t != fromToken && t != toToken ==> unchanged(players[t])
      ensures forall n :: n in buildings && n != giveName && n != receiveName ==> unchanged(buildings[n])
      ensures forall t :: t in players ==> players[t].CurrentStanding() == old(players[t].CurrentStanding())
      ensures forall n :: n in buildings ==>
                buildings[n].mortgaged == old(buildings[n].mortgaged) && buildings[n].improvements == old(buildings[n].improvements)
      ensures old(Consistent()) && fromToken != toToken ==> Consistent()
    {
      var fromPlayer := GetPlayer(fromToken);
      var toPlayer := GetPlayer(toToken);
      var give := GetBuilding(giveName);
      var receive := GetBuilding(receiveName);
      if fromPlayer == null || toPlayer == null || give == null || receive == null {
        return InvalidPlayerOrBuilding;
      }
      if give.ownerToken != fromToken || receive.ownerToken != toToken {
        return OwnershipMismatch;
      }
      Swap(fromPlayer, give, toPlayer, receive);
      outcome := Traded;
    }

    /** The trade with the evident intent restored: a trade needs two different
        players, so a player offering a building to itself is refused. Every
        successful trade keeps owner tokens and owned lists in agreement. */
    method Trade(fromToken: string, giveName: string, toToken: string, receiveName: string)
      returns (outcome: TradeOutcome)
      requires Valid()
      modifies players.Values, buildings.Values
      ensures outcome == InvalidPlayerOrBuilding <==> !Found(fromToken, giveName, toToken, receiveName)
      ensures outcome == SelfTrade <==> Found(fromToken, giveName, toToken, receiveName) && fromToken == toToken
      ensures outcome == OwnershipMismatch <==>
                Found(fromToken, giveName, toToken, receiveName) && fromToken != toToken &&
                (old(buildings[giveName].ownerToken) != fromToken || old(buildings[receiveName].ownerToken) != toToken)
      ensures outcome != Traded ==>
                (forall p :: p in players.Values ==> unchanged(p)) && (forall b :: b in buildings.Values ==> unchanged(b))
      ensures outcome == Traded ==>
                && buildings[giveName].ownerToken == toToken && buildings[receiveName].ownerToken == fromToken
                && players[fromToken].ownedBuildings == Without(old(players[fromToken].ownedBuildings), giveName) + [receiveName]
                && players[toToken].ownedBuildings == Without(old(players[toToken].ownedBuildings), receiveName) + [giveName]
      ensures forall t :: t in players && t != fromToken && t != toToken ==> unchanged(players[t])
      ensures forall n :: n in buildings && n != giveName && n != receiveName ==> unchanged(buildings[n])
      ensures forall t :: t in players ==> players[t].CurrentStanding() == old(players[t].CurrentStanding())
      ensures forall n :: n in buildings ==>
                buildings[n].mortgaged == old(buildings[n].mortgaged) && buildings[n].improvements == old(buildings[n].improvements)
      ensures old(Consistent()) ==> Consistent()
    {
      var fromPlayer := GetPlayer(fromToken);
      var toPlayer := GetPlayer(toToken);
      var give := GetBuilding(giveName);
      var receive := GetBuilding(receiveName);
      if fromPlayer == null || toPlayer == null || give == null || receive == null {
        return InvalidPlayerOrBuilding;
      }
      if fromToken == toToken {
        return SelfTrade;
      }
      if give.ownerToken != fromToken || receive.ownerToken != toToken {
        return OwnershipMismatch;
      }
      Swap(fromPlayer, give, toPlayer, receive);
      outcome := Traded;
    }

    /** The mutating half of a trade, once both lookups and both ownerships are checked. */
    method Swap(fromPlayer: Player, give: Building, toPlayer: Player, receive: Building)
      requires Valid()
      requires fromPlayer in players.Values && toPlayer in players.Values
      requires give in buildings.Values && receive in buildings.Values
      requires give.ownerToken == fromPlayer.token && receive.ownerToken == toPlayer.token
      modifies fromPlayer`ownedBuildings, toPlayer`ownedBuildings, give`ownerToken, receive`ownerToken
      ensures give.ownerToken == toPlayer.token && receive.ownerToken == fromPlayer.token
      ensures fromPlayer != toPlayer ==>
                && fromPlayer.ownedBuildings == Without(old(fromPlayer.ownedBuildings), give.name) + [receive.name]
                && toPlayer.ownedBuildings == Without(old(toPlayer.ownedBuildings), receive.name) + [give.name]
      ensures fromPlayer == toPlayer ==>
                fromPlayer.ownedBuildings ==
                  Without(Without(old(fromPlayer.ownedBuildings), give.name) + [receive.name], receive.name) + [give.name]
      ensures old(Consistent()) && fromPlayer != toPlayer ==> Consistent()
    {
      give.SetOwnerToken(toPlayer.token);
      receive.SetOwnerToken(fromPlayer.token);
      fromPlayer.RemoveProperty(give.name);
      fromPlayer.AddProperty(receive.name);
      toPlayer.RemoveProperty(receive.name);
      toPlayer.AddProperty(give.name);
    }
  }

  /** The list edits of the self-trade below, worked out on their own. */
  lemma SelfTradeList()
    ensures Without(Without(["DC", "MC"], "DC") + ["MC"], "MC") + ["DC"] == ["DC"]
  {
    assert Without(["DC", "MC"], "DC") == ["MC"];
    assert Without(["MC", "MC"], "MC") == [];
  }

  /** A game with one player V who owns both DC and MC, each naming V as owner. */
  method OnePlayerOwningTwo() returns (controller: GameController, v: Player, dc: Building, mc: Building)
    ensures fresh(controller) && fresh(v) && fresh(dc) && fresh(mc)
    ensures controller.Valid() && dc != mc
    ensures controller.players == map["V" := v]
    ensures controller.buildings == map["DC" := dc, "MC" := mc]
    ensures v.ownedBuildings == ["DC", "MC"]
    ensures dc.ownerToken == "V" && mc.ownerToken == "V"
  {
    controller := new GameController();
    v := new Player("Vyomm", "V", DefaultStartMoney);
    dc := new Building.Academic("DC", 39, 400, "Math", 200);
    mc := new Building.Academic("MC", 29, 350, "Math", 200);
    controller.AddPlayer(v);
    controller.AddBuilding(dc);
    controller.AddBuilding(mc);
    dc.SetOwnerToken("V");
    v.AddProperty("DC");
    mc.SetOwnerToken("V");
    v.AddProperty("MC");
  }

  /** The game's trade run by a player on itself: V owns DC and MC and trades DC
      for MC with V. The trade succeeds and MC still names V as owner, but MC is
      gone from V's list. */
  method SelfTradeLosesBuilding() returns (outcome: TradeOutcome, mcOwner: string, listed: seq<string>)
    ensures outcome == Traded
    ensures mcOwner == "V"
    ensures listed == ["DC"]
  {
    var controller, v, dc, mc := OnePlayerOwningTwo();
    outcome := controller.TradeAsWritten("V", "DC", "V", "MC");
    SelfTradeList();
    mcOwner := mc.ownerToken;
    listed := v.ownedBuildings;
  }
}
