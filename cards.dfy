/** What the two card cogs share, whichever schema the card records follow: attacks,
    abilities and weakness entries, the embed a card is shown as, the renderers both
    copies of `pokemon_embed` and `text` use, and the choice between channel and DM. */
module Cards {
  import opened Outcomes
  import opened Collect
  import opened Strings
  import opened Tables

  /** An attack: energy cost (type names), name, damage text ('' when none) and rules text. */
  datatype Attack = Attack(cost: seq<string>, name: string, damage: string, text: Option<string>)

  /** An ability or Poké-Power: its kind ("Ability", "Poké-Power", ...), name and text. */
  datatype Ability = Ability(kind: string, name: string, text: string)

  /** A weakness or resistance: a type name and a modifier such as "×2" or "-20". */
  datatype TypeValue = TypeValue(kind: string, value: string)

  /** The parts of a chat embed the cogs fill in. `discord.Embed.add_field` defaults
      `inline` to True. */
  datatype Field = Field(name: string, value: string, inline: bool)
  datatype Footer = Footer(text: string, icon: string)
  datatype Embed = Embed(
    title: string,
    colour: Option<nat>,
    description: string,
    fields: seq<Field>,
    image: Option<string>,
    footer: Option<Footer>)

  /** A reply is either plain text or an embed. */
  datatype Message = Plain(text: string) | Rich(embed: Embed)

  datatype Destination = Channel | Author

  /** What the `card` command sends: an optional notice to the channel, then the reply. */
  datatype Delivery = Delivery(notice: Option<string>, destination: Destination, message: Message)

  const TooLongNotice: string := "Results list is too long, messaging instead"

  /** What `search` returns to the `card` command: the reply and the number of results. */
  datatype Reply = Reply(message: Message, count: nat)

  /** What `search` does with a name before any result is known: answer at once, or issue
      these queries in this order and concatenate their results. */
  datatype Plan<Q> = Immediate(text: string, count: nat) | Issue(queries: seq<Q>)

  /** What `parse_card` gives back: the one card that matched, or the message explaining
      why there is none. */
  datatype Lookup<C> = Found(card: C) | Refused(message: string)

  /** The results of the queries, each query's results after the previous one's, as
      `cards.extend(Card.where(...))` accumulates them. */
  function Fetched<Q, C>(where: Q -> seq<C>, queries: seq<Q>): seq<C>
    decreases |queries|
  {
    if queries == [] then []
    else Fetched(where, queries[..|queries| - 1]) + where(queries[|queries| - 1])
  }

  /** Two queries give the first one's results followed by the second one's. */
  lemma FetchedPair<Q, C>(where: Q -> seq<C>, q1: Q, q2: Q)
    ensures Fetched(where, [q1, q2]) == where(q1) + where(q2)
  {
    assert [q1, q2][..1] == [q1];
    FetchedSingle(where, q1);
  }

  /** One query gives exactly its results. */
  lemma FetchedSingle<Q, C>(where: Q -> seq<C>, q: Q)
    ensures Fetched(where, [q]) == where(q)
  {
    assert [q][..0] == [];
    assert [] + where(q) == where(q);
  }

  function NoMatches(name: string): string
  {
    "No matches for search '" + name + "'"
  }

  /** The first line of a listing, without its newline. */
  function HeaderLine(name: string): string
  {
    "Matches for search '" + name + "'"
  }

  function NoCard(setText: string): string
  {
    "No results for card `" + setText + "`"
  }

  function NoResults(name: string, setText: string): string
  {
    "No results found for '" + name + "' in set `" + setText + "`"
  }

  function TooMany(name: string, setText: string, number: string): string
  {
    "Too many results. Try specifying the card number too. For example `[p]show "
      + name + " " + setText + "-" + number + "`"
  }

  /** `" (Evolves from %s)"` when the card evolves from something, nothing otherwise. */
  function EvolvesFromOf(evolvesFrom: Option<string>): string
  {
    if evolvesFrom.Some? && evolvesFrom.value != "" then " (Evolves from " + evolvesFrom.value + ")"
    else ""
  }

  /** One line per item, in order. */
  function LinesOf<T>(line: T -> string, xs: seq<T>): (lines: seq<string>)
    ensures |lines| == |xs|
    ensures forall i :: 0 <= i < |xs| ==> lines[i] == line(xs[i])
  {
    seq(|xs|, i requires 0 <= i < |xs| => line(xs[i]))
  }

  /** A search listing: the header line, then one line per result. */
  function ListingOf<T>(name: string, line: T -> string, xs: seq<T>): string
  {
    Terminated([HeaderLine(name)] + LinesOf(line, xs))
  }

  /** The listing loop of `search`: the header, then `return_str += line + "\n"` for each
      result. */
  method Listing<T>(name: string, line: T -> string, xs: seq<T>) returns (out: string)
    ensures out == ListingOf(name, line, xs)
  {
    out := HeaderLine(name) + "\n";
    ghost var header := out;
    for i := 0 to |xs|
      invariant out == header + Terminated(LinesOf(line, xs[..i]))
    {
      ghost var done := LinesOf(line, xs[..i]);
      var next := line(xs[i]);
      assert LinesOf(line, xs[..i + 1]) == done + [next];
      TerminatedSnoc(done, next);
      ghost var t := Terminated(done);
      assert (header + t) + (next + "\n") == header + (t + next + "\n");
      out := out + (next + "\n");
    }
    assert xs[..|xs|] == xs;
    TerminatedCons(HeaderLine(name), LinesOf(line, xs));
  }

  /** A listing whose header and lines are one line each splits back into exactly those
      lines, with an empty remainder after the last newline. */
  lemma ListingSplits<T>(name: string, line: T -> string, xs: seq<T>)
    requires SingleLine(name)
    requires forall i :: 0 <= i < |xs| ==> SingleLine(line(xs[i]))
    ensures Split(ListingOf(name, line, xs), '\n') == [HeaderLine(name)] + LinesOf(line, xs) + [""]
  {
    var lines := [HeaderLine(name)] + LinesOf(line, xs);
    forall i | 0 <= i < |lines| ensures SingleLine(lines[i]) {
      if i > 0 {
        assert lines[i] == line(xs[i - 1]);
      }
    }
    SplitTerminated(lines);
  }

  /** One unnamed field per rule text, in order, as `trainer_embed` adds them. */
  function RuleFields(rules: seq<string>): (fields: seq<Field>)
    ensures |fields| == |rules|
    ensures forall i :: 0 <= i < |rules| ==> fields[i] == Field(Blank, rules[i], true)
  {
    seq(|rules|, i requires 0 <= i < |rules| => Field(Blank, rules[i], true))
  }

  /** The weakness / resistance / retreat title is empty exactly when the card has none of
      the three. */
  lemma WrrNameEmpty(weak: Option<seq<TypeValue>>, res: Option<seq<TypeValue>>, retreat: Option<seq<string>>)
    requires WrrNameOf(weak, res, retreat).Success?
    ensures WrrNameOf(weak, res, retreat).value == "" <==> weak.None? && res.None? && retreat.None?
  {
  }

  /** A one-line string: it has no newline in it. */
  predicate SingleLine(s: string)
  {
    '\n' !in s
  }

  /** `embed.add_field`: the new field goes after all existing ones. */
  function AddField(e: Embed, f: Field): (r: Embed)
    ensures r.fields == e.fields + [f]
    ensures r.(fields := e.fields) == e
  {
    e.(fields := e.fields + [f])
  }

  /** `s or '​'`. */
  function OrBlank(s: string): string
  {
    if s == "" then Blank else s
  }

  /** The `card` command's routing: more than MaxLines results go to the requester,
      after a notice in the channel; otherwise the reply goes to the channel. */
  function Deliver(message: Message, results: int): (d: Delivery)
    ensures d.message == message
    ensures d.destination == Channel <==> results <= MaxLines
    ensures d.notice.Some? <==> d.destination == Author
    ensures d.notice.Some? ==> d.notice.value == TooLongNotice
  {
    if results > MaxLines then Delivery(Some(TooLongNotice), Author, message)
    else Delivery(None, Channel, message)
  }

  /* ---- embed pieces ---- */

  /** An ability as an embed field. */
  function AbilityFieldOf(ab: Ability): Result<Field>
  {
    Success(Field(ab.kind + ": " + ab.name, OrBlank(ab.text), true))
  }

  /** An attack as an embed field: cost emoji, name, damage when there is some, and the
      attack text or a blank. */
  function AttackFieldOf(a: Attack): Result<Field>
  {
    var cost :- FlatMap(EmojiOf, a.cost);
    Success(Field(
      cost + " " + a.name + (if a.damage != "" then " - " + a.damage else ""),
      if a.text.Some? && a.text.value != "" then a.text.value else Blank,
      false))
  }

  method AttackField(a: Attack) returns (r: Result<Field>)
    ensures r == AttackFieldOf(a)
  {
    var name := "";
    var cost := RenderEach(EmojiOf, a.cost);
    if cost.Failure? {
      return Failure(cost.fault);
    }
    assert name + cost.value == cost.value;
    name := name + cost.value;
    name := name + (" " + a.name);
    if a.damage != "" {
      name := name + (" - " + a.damage);
    }
    var text := "";
    if a.text.Some? && a.text.value != "" {
      text := a.text.value;
    } else {
      text := Blank;
    }
    assert name == cost.value + " " + a.name + (if a.damage != "" then " - " + a.damage else "");
    return Success(Field(name, text, false));
  }

  /** The attack loop of `pokemon_embed`: one field added per attack, in order; the first
      attack whose cost has no emoji raises and ends the loop. */
  method AddAttackFields(e: Embed, attacks: seq<Attack>) returns (r: Result<Embed>)
    ensures r == (var fs :- MapAll(AttackFieldOf, attacks); Success(e.(fields := e.fields + fs)))
  {
    var embed := e;
    var fs: seq<Field> := [];
    for i := 0 to |attacks|
      invariant MapAll(AttackFieldOf, attacks[..i]) == Success(fs)
      invariant embed == e.(fields := e.fields + fs)
    {
      assert attacks[..i + 1][..i] == attacks[..i];
      var f := AttackField(attacks[i]);
      if f.Failure? {
        MapAllFailureSticks(AttackFieldOf, attacks, i + 1);
        return Failure(f.fault);
      }
      assert e.fields + fs + [f.value] == e.fields + (fs + [f.value]);
      embed := AddField(embed, f.value);
      fs := fs + [f.value];
    }
    assert attacks[..|attacks|] == attacks;
    return Success(embed);
  }

  /** The ability loop of `pokemon_embed`: one field added per ability, in order; no
      ability raises. */
  method AddAbilityFields(e: Embed, abilities: seq<Ability>) returns (r: Embed)
    ensures MapAll(AbilityFieldOf, abilities).Success?
    ensures r == e.(fields := e.fields + MapAll(AbilityFieldOf, abilities).value)
  {
    r := e;
    var fs: seq<Field> := [];
    for i := 0 to |abilities|
      invariant MapAll(AbilityFieldOf, abilities[..i]) == Success(fs)
      invariant r == e.(fields := e.fields + fs)
    {
      assert abilities[..i + 1][..i] == abilities[..i];
      var ab := abilities[i];
      var f := Field(ab.kind + ": " + ab.name, OrBlank(ab.text), true);
      assert e.fields + fs + [f] == e.fields + (fs + [f]);
      r := AddField(r, f);
      fs := fs + [f];
    }
    assert abilities[..|abilities|] == abilities;
  }

  /** One weakness or resistance in an embed: emoji and modifier. */
  function TypeValueEmojiOf(tv: TypeValue): Result<string>
  {
    var e :- EmojiOf(tv.kind);
    Success(e + " (" + tv.value + ")")
  }

  /** The title of the weakness / resistance / retreat field. */
  function WrrNameOf(weak: Option<seq<TypeValue>>, res: Option<seq<TypeValue>>,
                     retreat: Option<seq<string>>): Result<string>
  {
    var w :- if weak.None? then Success("")
             else var ws :- FlatMap(TypeValueEmojiOf, weak.value); Success("Weakness: " + ws);
    var r :- if res.None? then Success("")
             else var rs :- FlatMap(TypeValueEmojiOf, res.value); Success(" - Resistance: " + rs);
    var t := if retreat.None? then "" else " - Retreat: " + Repeat(Emoji["Colorless"], |retreat.value|);
    Success(w + r + t)
  }

  method WrrName(weak: Option<seq<TypeValue>>, res: Option<seq<TypeValue>>,
                 retreat: Option<seq<string>>) returns (r: Result<string>)
    ensures r == WrrNameOf(weak, res, retreat)
  {
    var name := "";
    ghost var w, rr, t := "", "", "";
    if weak.Some? {
      name := name + "Weakness: ";
      var ws := RenderEach(TypeValueEmojiOf, weak.value);
      if ws.Failure? {
        return Failure(ws.fault);
      }
      name := name + ws.value;
      w := "Weakness: " + ws.value;
    }
    assert name == w;
    if res.Some? {
      name := name + " - Resistance: ";
      var rs := RenderEach(TypeValueEmojiOf, res.value);
      if rs.Failure? {
        return Failure(rs.fault);
      }
      name := name + rs.value;
      rr := " - Resistance: " + rs.value;
    }
    assert name == w + rr;
    if retreat.Some? {
      name := name + " - Retreat: ";
      name := name + Repeat(Emoji["Colorless"], |retreat.value|);
      t := " - Retreat: " + Repeat(Emoji["Colorless"], |retreat.value|);
    }
    assert name == w + rr + t;
    return Success(name);
  }

  /* ---- plain-text pieces ---- */

  function AbilityTextOf(ab: Ability): Result<string>
  {
    Success(ab.kind + ": " + ab.name + "\n" + ab.text + "\n" + "\n")
  }

  /** An attack in the copy-and-paste text: shorthand cost, name, damage when there is
      some, the attack text when present, and a blank line. */
  function AttackTextOf(a: Attack): Result<string>
  {
    var cost :- FlatMap(ShortEnergyOf, a.cost);
    Success(cost + " " + a.name
      + (if a.damage != "" then ": " + a.damage + " damage\n" else "\n")
      + (if a.text.Some? then a.text.value + "\n" else "")
      + "\n")
  }

  method AttackText(a: Attack) returns (r: Result<string>)
    ensures r == AttackTextOf(a)
  {
    var out := "";
    var cost := RenderEach(ShortEnergyOf, a.cost);
    if cost.Failure? {
      return Failure(cost.fault);
    }
    assert out + cost.value == cost.value;
    out := out + cost.value;
    out := out + (" " + a.name);
    if a.damage != "" {
      out := out + (": " + a.damage + " damage\n");
    } else {
      out := out + "\n";
    }
    if a.text.Some? {
      out := out + (a.text.value + "\n");
    }
    out := out + "\n";
    assert out == cost.value + " " + a.name
      + (if a.damage != "" then ": " + a.damage + " damage\n" else "\n")
      + (if a.text.Some? then a.text.value + "\n" else "")
      + "\n";
    return Success(out);
  }

  function WeaknessLineOf(tv: TypeValue): Result<string>
  {
    Success("Weakness: " + tv.kind + " (" + tv.value + ")\n")
  }

  function ResistanceLineOf(tv: TypeValue): Result<string>
  {
    Success("Resistance: " + tv.kind + " (" + tv.value + ")\n")
  }

  /** `"%s" % rule`: a rule box line is appended as it is. */
  function RuleOf(rule: string): Result<string>
  {
    Success(rule)
  }

  /** `"%s\n" % rule`. */
  function RuleLineOf(rule: string): Result<string>
  {
    Success(rule + "\n")
  }

  /* ---- properties ---- */

  /** A shorthand cost renders one three-character symbol per cost entry, in order,
      and raises KeyError as soon as an entry has no shorthand (such as "Dragon"). */
  lemma ShortCostLayout(costs: seq<string>)
    ensures FlatMap(ShortEnergyOf, costs).Success? <==> forall i :: 0 <= i < |costs| ==> costs[i] in ShortEnergy
    ensures FlatMap(ShortEnergyOf, costs).Success? ==>
      var s := FlatMap(ShortEnergyOf, costs).value;
      && |s| == 3 * |costs|
      && forall i :: 0 <= i < |costs| ==> s[3 * i..3 * i + 3] == ShortEnergy[costs[i]]
  {
    FlatMapSucceeds(ShortEnergyOf, costs);
    if FlatMap(ShortEnergyOf, costs).Success? {
      ShortEnergyWidth();
      TriplesSlices(ShortEnergyOf, costs);
    }
  }

  /** Rendering pieces that are each three characters wide gives one three-character
      slice per element, in order. */
  lemma {:induction false} TriplesSlices<T>(f: T -> Result<string>, xs: seq<T>)
    requires forall i :: 0 <= i < |xs| ==> f(xs[i]).Success? && |f(xs[i]).value| == 3
    ensures FlatMap(f, xs).Success?
    ensures var s := FlatMap(f, xs).value;
      && |s| == 3 * |xs|
      && forall i :: 0 <= i < |xs| ==> s[3 * i..3 * i + 3] == f(xs[i]).value
    decreases |xs|
  {
    if xs != [] {
      var init := xs[..|xs| - 1];
      assert forall i :: 0 <= i < |init| ==> init[i] == xs[i];
      TriplesSlices(f, init);
      var s := FlatMap(f, xs).value;
      var p := FlatMap(f, init).value;
      var last := f(xs[|xs| - 1]).value;
      assert s == p + last;
      forall i | 0 <= i < |xs| ensures s[3 * i..3 * i + 3] == f(xs[i]).value {
        if i < |init| {
          assert s[3 * i..3 * i + 3] == p[3 * i..3 * i + 3];
          assert init[i] == xs[i];
        } else {
          assert s[3 * i..3 * i + 3] == last;
        }
      }
    }
  }

  /** A cost of n Colorless energy, as the source lists retreat costs. */
  function ColorlessCost(n: nat): seq<string>
  {
    seq(n, _ => "Colorless")
  }

  /** The retreat part of an embed shows exactly as many Colorless symbols as the card
      has retreat-cost entries: the same text an attack costing that many Colorless
      energy gets. */
  lemma {:induction false} RetreatIsColorlessCost(n: nat)
    ensures FlatMap(EmojiOf, ColorlessCost(n)) == Success(Repeat(Emoji["Colorless"], n))
    decreases n
  {
    if n > 0 {
      RetreatIsColorlessCost(n - 1);
      assert ColorlessCost(n)[..n - 1] == ColorlessCost(n - 1);
    }
  }

  /** An attack field is named by one emoji per cost entry, in order, then the attack
      name, then " - " and the damage exactly when the damage is not empty; its value is
      the attack text, or a blank. It raises exactly when a cost entry has no emoji, and
      then with the KeyError of the first such entry. */
  lemma AttackFieldLayout(a: Attack)
    ensures AttackFieldOf(a).Success? <==> forall i :: 0 <= i < |a.cost| ==> a.cost[i] in Emoji
    ensures AttackFieldOf(a).Failure? ==>
      exists i ::
        && 0 <= i < |a.cost|
        && (forall j :: 0 <= j < i ==> a.cost[j] in Emoji)
        && a.cost[i] !in Emoji
        && AttackFieldOf(a).fault == KeyError(a.cost[i])
    ensures AttackFieldOf(a).Success? ==>
      && MapAll(EmojiOf, a.cost).Success?
      && |MapAll(EmojiOf, a.cost).value| == |a.cost|
      && (forall i :: 0 <= i < |a.cost| ==> MapAll(EmojiOf, a.cost).value[i] == Emoji[a.cost[i]])
      && AttackFieldOf(a).value.name
         == Flatten(MapAll(EmojiOf, a.cost).value) + " " + a.name + (if a.damage != "" then " - " + a.damage else "")
      && AttackFieldOf(a).value.value == (if a.text.Some? && a.text.value != "" then a.text.value else Blank)
      && !AttackFieldOf(a).value.inline
  {
    FlatMapSucceeds(EmojiOf, a.cost);
    FlatMapIsFlatten(EmojiOf, a.cost);
    if AttackFieldOf(a).Failure? {
      FlatMapFirstFailure(EmojiOf, a.cost);
    } else {
      MapAllPointwise(EmojiOf, a.cost);
    }
  }

  /** An attack line in the text shows the damage exactly when the damage is not empty:
      right after the cost and the name comes ':' if it does and a newline if not. */
  lemma AttackDamageShown(a: Attack)
    requires AttackTextOf(a).Success?
    ensures var t := AttackTextOf(a).value; var n := 3 * |a.cost| + 1 + |a.name|;
      && |t| > n
      && t[3 * |a.cost|..n] == " " + a.name
      && (t[n] == ':' <==> a.damage != "")
  {
    ShortCostLayout(a.cost);
  }
}
