/**
 * The trade-scenario panel: a destination is picked from a fixed table of four markets;
 * a closed destination lists its alternative markets with their freight costs and tariffs,
 * an open one shows its own.
 */
module TradeScenario {
  import opened Wrappers

  /** A market's status (the strings 'open' or 'closed') and its suggested alternatives. */
  datatype ScenarioMarket = ScenarioMarket(status: string, alternatives: seq<string>)

  /** Freight cost in dollars and tariff in whole percent (25 means 25%). */
  datatype FreightTariff = FreightTariff(freight: nat, tariffPercent: nat)

  /** The `markets` table. */
  const ScenarioMarkets: map<string, ScenarioMarket> := map[
    "china" := ScenarioMarket("closed", ["japan", "singapore", "vietnam"]),
    "japan" := ScenarioMarket("open", []),
    "singapore" := ScenarioMarket("open", []),
    "vietnam" := ScenarioMarket("open", [])]

  /** `Object.keys(markets)`, in declaration order. */
  const ScenarioKeys: seq<string> := ["china", "japan", "singapore", "vietnam"]

  /** The `costs` table. */
  const ScenarioCosts: map<string, FreightTariff> := map[
    "china" := FreightTariff(5000, 25),
    "japan" := FreightTariff(4500, 10),
    "singapore" := FreightTariff(3500, 5),
    "vietnam" := FreightTariff(3000, 15)]

  /** `toUpperCase` on one character; only the ASCII letters a-z change. */
  function UpperChar(c: char): (u: char)
    ensures 'a' <= c <= 'z' ==> 'A' <= u <= 'Z' && u as int == c as int - 32
    ensures !('a' <= c <= 'z') ==> u == c
  {
    if 'a' <= c <= 'z' then (c as int - 32) as char else c
  }

  /** `s.toUpperCase()` */
  function UpperString(s: string): (r: string)
    ensures |r| == |s|
    ensures forall i :: 0 <= i < |s| ==> r[i] == UpperChar(s[i])
  {
    seq(|s|, i requires 0 <= i < |s| => UpperChar(s[i]))
  }

  /** `s.charAt(0).toUpperCase() + s.slice(1)`: the first character capitalised, the rest as is. */
  function Capitalize(s: string): (r: string)
    ensures |r| == |s|
    ensures |s| > 0 ==> r[0] == UpperChar(s[0]) && r[1..] == s[1..]
    ensures s == [] ==> r == []
  {
    if s == [] then [] else [UpperChar(s[0])] + s[1..]
  }

  /** One entry of the destination select: its text and its value. */
  datatype SelectOption = SelectOption(text: string, value: string)

  /** The select's options: one per market key, labelled by capitalising the key. */
  function DestinationOptions(): (r: seq<SelectOption>)
    ensures |r| == |ScenarioKeys|
    ensures forall i :: 0 <= i < |r| ==> r[i].value == ScenarioKeys[i] && r[i].text == Capitalize(ScenarioKeys[i])
  {
    seq(|ScenarioKeys|, i requires 0 <= i < |ScenarioKeys| =>
      SelectOption(Capitalize(ScenarioKeys[i]), ScenarioKeys[i]))
  }

  /** One alternative's card: its caption, freight cost and tariff. */
  datatype AlternativeCard = AlternativeCard(caption: string, freight: nat, tariffPercent: nat)

  /**
   * What the panel shows: nothing, or a card with the status in capitals followed by the
   * alternatives (closed market) or the market's own costs (open market).
   */
  datatype Panel =
    | NoPanel
    | StatusPanel(statusText: string, alternatives: Option<seq<AlternativeCard>>, own: Option<FreightTariff>)

  /** Every key and every listed alternative has a row in the costs table. */
  lemma CostsCoverMarkets()
    ensures forall k :: k in ScenarioMarkets ==> k in ScenarioCosts
    ensures forall k, i :: k in ScenarioMarkets && 0 <= i < |ScenarioMarkets[k].alternatives| ==>
      ScenarioMarkets[k].alternatives[i] in ScenarioCosts
    ensures forall k :: k in ScenarioMarkets <==> k in ScenarioKeys
  {
  }

  /** The cards for a list of alternatives, in list order. */
  function AlternativeCards(alts: seq<string>): (r: seq<AlternativeCard>)
    requires forall i :: 0 <= i < |alts| ==> alts[i] in ScenarioCosts
    ensures |r| == |alts|
    ensures forall i :: 0 <= i < |alts| ==>
      r[i] == AlternativeCard(Capitalize(alts[i]), ScenarioCosts[alts[i]].freight, ScenarioCosts[alts[i]].tariffPercent)
  {
    seq(|alts|, i requires 0 <= i < |alts| =>
      AlternativeCard(Capitalize(alts[i]), ScenarioCosts[alts[i]].freight, ScenarioCosts[alts[i]].tariffPercent))
  }

  /**
   * The panel for a destination. The destination is either empty (nothing chosen yet)
   * or one of the select's values, which are the keys of the markets table.
   */
  function ShowDestination(destination: string): (p: Panel)
    requires destination == "" || destination in ScenarioMarkets
    ensures destination == "" <==> p == NoPanel
    ensures destination != "" ==>
      p.StatusPanel? && p.statusText == UpperString(ScenarioMarkets[destination].status)
    ensures destination != "" && ScenarioMarkets[destination].status == "closed" ==>
      p.alternatives == Some(AlternativeCards(ScenarioMarkets[destination].alternatives)) && p.own == None
    ensures destination != "" && ScenarioMarkets[destination].status == "open" ==>
      p.alternatives == None && p.own == Some(ScenarioCosts[destination])
  {
    CostsCoverMarkets();
    if destination == "" then NoPanel
    else
      var market := ScenarioMarkets[destination];
      StatusPanel(
        UpperString(market.status),
        if market.status == "closed" then Some(AlternativeCards(market.alternatives)) else None,
        if market.status == "open" then Some(ScenarioCosts[destination]) else None)
  }

  /** Only china is closed, and its alternatives are japan, singapore and vietnam. */
  lemma OnlyChinaClosed()
    ensures forall k :: k in ScenarioMarkets ==> (ScenarioMarkets[k].status == "closed" <==> k == "china")
    ensures forall k :: k in ScenarioMarkets ==> ScenarioMarkets[k].status == "closed" || ScenarioMarkets[k].status == "open"
    ensures ScenarioMarkets["china"].alternatives == ["japan", "singapore", "vietnam"]
  {
  }

  /** The labels the select shows. */
  lemma CapitalizedKeys()
    ensures Capitalize("china") == "China"
    ensures Capitalize("japan") == "Japan"
    ensures Capitalize("singapore") == "Singapore"
    ensures Capitalize("vietnam") == "Vietnam"
  {
    assert "china"[1..] == "hina";
    assert "japan"[1..] == "apan";
    assert "singapore"[1..] == "ingapore";
    assert "vietnam"[1..] == "ietnam";
  }

  /** Choosing china lists the three alternatives with their own freight and tariff, not china's. */
  lemma ChinaShowsAlternatives()
    ensures ShowDestination("china") == StatusPanel("CLOSED", Some([
      AlternativeCard("Japan", 4500, 10),
      AlternativeCard("Singapore", 3500, 5),
      AlternativeCard("Vietnam", 3000, 15)]), None)
  {
    CapitalizedKeys();
    var alts := ["japan", "singapore", "vietnam"];
    var cards := AlternativeCards(alts);
    assert cards[0] == AlternativeCard("Japan", 4500, 10);
    assert cards[1] == AlternativeCard("Singapore", 3500, 5);
    assert cards[2] == AlternativeCard("Vietnam", 3000, 15);
    assert cards == [cards[0], cards[1], cards[2]];
    var upper := UpperString("closed");
    assert upper[0] == 'C' && upper[1] == 'L' && upper[2] == 'O' && upper[3] == 'S' && upper[4] == 'E' && upper[5] == 'D';
    assert upper == "CLOSED";
    assert ScenarioMarkets["china"] == ScenarioMarket("closed", alts);
  }

  /** The component's one state cell. */
  class Scenario {
    var destination: string

    constructor ()
      ensures destination == ""
    {
      destination := "";
    }

    /** `handleDestinationChange`: the select hands over one of its values. */
    method HandleDestinationChange(value: string)
      requires value in ScenarioMarkets
      modifies this
      ensures destination == value
    {
      destination := value;
    }
  }
}
