/** The card commands over the current SDK schema: `search` (the `card` command's
    listing), `parse_card`, `show`, `embed_create`, `pokemon_embed`, `trainer_embed` and
    `text`. The SDK's queries are the fields of an `Api` value. */
module PokemonTcgV2 {
  import opened Outcomes
  import opened Collect
  import opened Strings
  import opened Tables
  import opened Cards

  /* ---- records ---- */

  /** Per-format legality of a set: 'Legal', 'Banned' or anything else. */
  datatype Legalities = Legalities(standard: string, expanded: string, unlimited: string)

  datatype CardSet = CardSet(
    id: string,
    name: string,
    series: string,
    printedTotal: nat,
    legalities: Legalities,
    symbol: string)

  datatype Trait = Trait(name: string, text: string)

  datatype Card = Card(
    id: string,
    name: string,
    supertype: string,
    subtypes: seq<string>,
    hp: Option<string>,
    types: seq<string>,
    evolvesFrom: Option<string>,
    ancientTrait: Option<Trait>,
    abilities: Option<seq<Ability>>,
    attacks: Option<seq<Attack>>,
    weaknesses: Option<seq<TypeValue>>,
    resistances: Option<seq<TypeValue>>,
    retreatCost: Option<seq<string>>,
    rules: Option<seq<string>>,
    number: string,
    rarity: string,
    cardSet: CardSet,
    image: string)

  /** The three ways the code calls `Card.where`. */
  datatype Query =
    | ByName(name: string)                  // Card.where(name=...)
    | ByText(q: string, orderBy: string)    // Card.where(q=..., orderBy=...)
    | InSet(name: string, setCode: string)  // Card.where(name=..., setCode=...)

  /** The SDK: `Card.where`, `Card.find` (None when there is no such card) and `Set.find`. */
  datatype Api = Api(where: Query -> seq<Card>, find: string -> Option<Card>, findSet: string -> CardSet)

  /* ---- search ---- */

  /** The fixed answer for "N", whose plain-name search would list far too many cards. */
  const NLines: seq<string> := [
    "Matches for search 'N'",
    "N - Noble Victories 92/101 (`bw3-92`)",
    "N - Noble Victories 101/101 (`bw3-101`)",
    "N - Dark Explorers 96/108 (`bw5-96`)",
    "N - BW Black Star Promos BW100 (`bwp-BW100`)",
    "N - Fates Collide 105/124 (`xy10-105`)",
    "N - Fates Collide 105a/124 (`xy10-105a`)"
  ]

  function NListing(): string
  {
    Terminated(NLines)
  }

  /** How `search` treats a name: the empty name and "N" are answered at once; a name
      ending in " ex" is looked up both as it is and with the dash form; " gx" and
      " delta" names are rewritten; anything else is a quoted name query ordered by
      release date. The suffix tests are made on the lower-cased name, in this order. */
  function SearchPlan(name: string): (p: Plan<Query>)
    ensures name == "" <==> p == Immediate("", 0)
    ensures p.Immediate? <==> name == "" || Lower(name) == "n"
  {
    var low := Lower(name);
    if name == "" then Immediate("", 0)
    else if EndsWith(low, " ex") then Issue([ByName(low), ByName(ReplaceAll(low, " ex", "-ex"))])
    else if EndsWith(low, " gx") then Issue([ByName(ReplaceAll(low, " gx", "-gx"))])
    else if EndsWith(low, " delta") then Issue([ByName(ReplaceAll(low, " delta", " \U{03B4}"))])
    else if low == "n" then Immediate(NListing(), 6)
    else Issue([ByText("name:\"" + name + "\"", "set.releaseDate")])
  }

  /** One line of a listing: name, series, number out of the printed total, and the id
      `show` accepts. */
  function ListingLineOf(c: Card): string
  {
    c.name + " - " + c.cardSet.series + " " + c.number + "/" + NatToString(c.cardSet.printedTotal)
      + " (`" + c.cardSet.id + "-" + c.number + "`)"
  }

  /** What `search` returns: the reply and the number of results. */
  function SearchOf(api: Api, name: string): Result<Reply>
  {
    match SearchPlan(name)
    case Immediate(text, count) => Success(Reply(Plain(text), count))
    case Issue(queries) =>
      var cards := Fetched(api.where, queries);
      if |cards| == 0 then Success(Reply(Plain(NoMatches(name)), 0))
      else if |cards| == 1 then
        var m :- ShowOf(api, cards[0].name, cards[0].cardSet.id);
        Success(Reply(m, 1))
      else Success(Reply(Plain(ListingOf(name, ListingLineOf, cards)), |cards|))
  }

  method Search(api: Api, name: string) returns (r: Result<Reply>)
    ensures r == SearchOf(api, name)
  {
    var plan := SearchPlan(name);
    if plan.Immediate? {
      return Success(Reply(Plain(plan.text), plan.count));
    }
    var queries := plan.queries;
    var cards: seq<Card> := [];
    for i := 0 to |queries|
      invariant cards == Fetched(api.where, queries[..i])
    {
      assert queries[..i + 1][..i] == queries[..i];
      cards := cards + api.where(queries[i]);
    }
    assert queries[..|queries|] == queries;
    if |cards| == 0 {
      return Success(Reply(Plain(NoMatches(name)), 0));
    }
    if |cards| == 1 {
      var m := ShowOf(api, cards[0].name, cards[0].cardSet.id);
      if m.Failure? {
        return Failure(m.fault);
      }
      return Success(Reply(m.value, 1));
    }
    var out := Listing(name, ListingLineOf, cards);
    return Success(Reply(Plain(out), |cards|));
  }

  /* ---- parse_card and show ---- */

  /** `parse_card`: a set text with a dash is a card id looked up directly; otherwise the
      name is searched within the set and must match exactly one card. */
  function ParseCard(api: Api, name: string, setText: string): (r: Lookup<Card>)
    ensures '-' in setText ==>
      (r.Found? <==> api.find(setText).Some?)
      && (r.Found? ==> r.card == api.find(setText).value)
      && (r.Refused? ==> r.message == NoCard(setText))
    ensures '-' !in setText ==>
      var cards := api.where(InSet(name, setText));
      (r.Found? <==> |cards| == 1)
      && (r.Found? ==> r.card == cards[0])
      && (r.Refused? ==> r.message == if cards == [] then NoResults(name, setText)
                                     else TooMany(name, setText, cards[0].number))
  {
    if '-' in setText then
      match api.find(setText)
      case None => Refused(NoCard(setText))
      case Some(card) => Found(card)
    else
      var cards := api.where(InSet(name, setText));
      if |cards| == 0 then Refused(NoResults(name, setText))
      else if |cards| > 1 then Refused(TooMany(name, setText, cards[0].number))
      else Found(cards[0])
  }

  /** `show`: the refusal message, or the card's embed built with its set as `Set.find`
      returns it. */
  function ShowOf(api: Api, name: string, setText: string): (r: Result<Message>)
    ensures ParseCard(api, name, setText).Refused? ==>
      r == Success(Plain(ParseCard(api, name, setText).message))
    ensures ParseCard(api, name, setText).Found? ==>
      var card := ParseCard(api, name, setText).card;
      r == (var e :- EmbedCreateOf(card, api.findSet(card.cardSet.id)); Success(Rich(e)))
  {
    match ParseCard(api, name, setText)
    case Refused(message) => Success(Plain(message))
    case Found(card) =>
      var e :- EmbedCreateOf(card, api.findSet(card.cardSet.id));
      Success(Rich(e))
  }

  /* ---- legality ---- */

  datatype Standing = Legal | Banned | Unlisted

  function StandingOf(status: string): Standing
  {
    if status == "Legal" then Legal else if status == "Banned" then Banned else Unlisted
  }

  /** "✅ (format)" for a legal format, "❌ (format)" for a banned one. */
  function Mark(standing: Standing, formatName: string): (r: string)
    requires standing != Unlisted && formatName != ""
    ensures |r| == |formatName| + 4
    ensures StandingOfMark(r[0]) == standing && r[3] == formatName[0]
  {
    (if standing == Legal then "\U{2705}" else "\U{274C}") + " (" + formatName + ")"
  }

  /** The legality part of an embed footer: Standard, Expanded, Legacy in that order,
      each only when listed, the first two followed by " - ". */
  function FooterLegality(l: Legalities): string
  {
    FooterMarks(StandingOf(l.standard), StandingOf(l.expanded), StandingOf(l.unlimited))
  }

  function FooterMarks(s: Standing, e: Standing, u: Standing): string
  {
    (if s == Unlisted then "" else Mark(s, "Standard") + " - ")
    + (if e == Unlisted then "" else Mark(e, "Expanded") + " - ")
    + (if u == Unlisted then "" else Mark(u, "Legacy"))
  }

  /** The legality part of the plain-text card: each listed format as " ✅ (format)" or
      " ❌ (format)", Standard, Expanded, Legacy in that order. */
  function TextLegality(l: Legalities): string
  {
    TextMarks(StandingOf(l.standard), StandingOf(l.expanded), StandingOf(l.unlimited))
  }

  function TextMarks(s: Standing, e: Standing, u: Standing): string
  {
    (if s == Unlisted then "" else " " + Mark(s, "Standard"))
    + (if e == Unlisted then "" else " " + Mark(e, "Expanded"))
    + (if u == Unlisted then "" else " " + Mark(u, "Legacy"))
  }

  function StandingOfMark(c: char): Standing
  {
    if c == '\U{2705}' then Legal else if c == '\U{274C}' then Banned else Unlisted
  }

  /** Reads one Standard or Expanded footer part, recognised by the format's initial. */
  function ReadFooterPart(t: string, initial: char): (Standing, string)
  {
    if |t| >= 15 && t[3] == initial then (StandingOfMark(t[0]), t[15..]) else (Unlisted, t)
  }

  /** Reads the three standings back from a footer's legality text. */
  function ReadFooterLegality(t: string): (Standing, Standing, Standing)
  {
    var (s, t1) := ReadFooterPart(t, 'S');
    var (e, t2) := ReadFooterPart(t1, 'E');
    (s, e, if |t2| >= 1 then StandingOfMark(t2[0]) else Unlisted)
  }

  /** Reads one Standard or Expanded part of the text, recognised by the format's initial. */
  function ReadTextPart(t: string, initial: char): (Standing, string)
  {
    if |t| >= 13 && t[4] == initial then (StandingOfMark(t[1]), t[13..]) else (Unlisted, t)
  }

  /** Reads the three standings back from the plain text's legality part. */
  function ReadTextLegality(t: string): (Standing, Standing, Standing)
  {
    var (s, t1) := ReadTextPart(t, 'S');
    var (e, t2) := ReadTextPart(t1, 'E');
    (s, e, if |t2| >= 2 then StandingOfMark(t2[1]) else Unlisted)
  }

  /** A listed Standard or Expanded footer part reads back as its standing, leaving
      what follows it. */
  lemma FooterPartReads(st: Standing, formatName: string, rest: string)
    requires st != Unlisted && |formatName| == 8
    ensures ReadFooterPart(Mark(st, formatName) + " - " + rest, formatName[0]) == (st, rest)
  {
    var m := Mark(st, formatName);
    var t := m + " - " + rest;
    assert t[0] == m[0] && t[3] == m[3];
    assert t[15..] == rest;
  }

  /** A listed Standard or Expanded part of the text reads back as its standing, leaving
      what follows it. */
  lemma TextPartReads(st: Standing, formatName: string, rest: string)
    requires st != Unlisted && |formatName| == 8
    ensures ReadTextPart(" " + Mark(st, formatName) + rest, formatName[0]) == (st, rest)
  {
    var m := Mark(st, formatName);
    var t := " " + m + rest;
    assert t[1] == m[0] && t[4] == m[3];
    assert t[13..] == rest;
  }

  /** The footer's Expanded and Legacy parts read back, and do not look like a
      Standard part. */
  lemma FooterTailReads(e: Standing, u: Standing)
    ensures var t := FooterMarks(Unlisted, e, u);
      ReadFooterPart(t, 'S') == (Unlisted, t)
      && ReadFooterLegality(t) == (Unlisted, e, u)
  {
    var c := if u == Unlisted then "" else Mark(u, "Legacy");
    assert |c| == 0 || |c| == 10;
    var t := FooterMarks(Unlisted, e, u);
    if e != Unlisted {
      FooterPartReads(e, "Expanded", c);
      assert t == Mark(e, "Expanded") + " - " + c;
    } else {
      assert t == c;
    }
  }

  /** The plain text's Legacy part alone is too short to look like a Standard or Expanded
      part, and reads back as its standing. */
  lemma TextLegacyReads(u: Standing)
    ensures var c := if u == Unlisted then "" else " " + Mark(u, "Legacy");
      && ReadTextPart(c, 'S') == (Unlisted, c)
      && ReadTextPart(c, 'E') == (Unlisted, c)
      && (if |c| >= 2 then StandingOfMark(c[1]) else Unlisted) == u
  {
    var c := if u == Unlisted then "" else " " + Mark(u, "Legacy");
    assert |c| == 0 || |c| == 11;
    assert c != "" ==> StandingOfMark(c[1]) == u;
  }

  /** The same for the plain text's Expanded and Legacy parts. */
  lemma TextTailReads(e: Standing, u: Standing)
    ensures var t := TextMarks(Unlisted, e, u);
      ReadTextPart(t, 'S') == (Unlisted, t)
      && ReadTextLegality(t) == (Unlisted, e, u)
  {
    var c := if u == Unlisted then "" else " " + Mark(u, "Legacy");
    TextLegacyReads(u);
    var t := TextMarks(Unlisted, e, u);
    if e != Unlisted {
      TextPartReads(e, "Expanded", c);
      assert t == " " + Mark(e, "Expanded") + c;
    } else {
      assert t == c;
    }
  }

  /** The footer names every format's standing, so it can be read back: which formats it
      marks legal, banned or not at all, and in which order, is exactly what the set's
      legalities say. */
  lemma FooterLegalityReadsBack(l: Legalities)
    ensures ReadFooterLegality(FooterLegality(l))
      == (StandingOf(l.standard), StandingOf(l.expanded), StandingOf(l.unlimited))
  {
    var s, e, u := StandingOf(l.standard), StandingOf(l.expanded), StandingOf(l.unlimited);
    FooterTailReads(e, u);
    var tail := FooterMarks(Unlisted, e, u);
    if s != Unlisted {
      FooterPartReads(s, "Standard", tail);
      assert FooterMarks(s, e, u) == Mark(s, "Standard") + " - " + tail;
    }
  }

  /** The same for the plain-text legality part. */
  lemma TextLegalityReadsBack(l: Legalities)
    ensures ReadTextLegality(TextLegality(l))
      == (StandingOf(l.standard), StandingOf(l.expanded), StandingOf(l.unlimited))
  {
    var s, e, u := StandingOf(l.standard), StandingOf(l.expanded), StandingOf(l.unlimited);
    TextTailReads(e, u);
    var tail := TextMarks(Unlisted, e, u);
    if s != Unlisted {
      TextPartReads(s, "Standard", tail);
      assert TextMarks(s, e, u) == " " + Mark(s, "Standard") + tail;
    }
  }

  /* ---- embeds ---- */

  /** The embed footer: set name, number out of the printed total, rarity, and on a second
      line the legalities. */
  function FooterTextOf(card: Card, cardSet: CardSet): string
  {
    cardSet.name + " - " + card.number + "/" + NatToString(cardSet.printedTotal) + " -- " + card.rarity
      + "\n " + FooterLegality(cardSet.legalities)
  }

  /** `embed_create`: a Pokémon or a Trainer/Energy embed, with the card image and the set
      footer. Any other supertype leaves the embed None, and setting its image raises. */
  function EmbedCreateOf(card: Card, cardSet: CardSet): (r: Result<Embed>)
    ensures r.Success? <==>
      || (card.supertype == "Pokémon" && PokemonEmbedOf(card).Success?)
      || ((card.supertype == "Trainer" || card.supertype == "Energy") && TrainerEmbedOf(card).Success?)
    ensures r.Success? ==>
      var e := if card.supertype == "Pokémon" then PokemonEmbedOf(card).value else TrainerEmbedOf(card).value;
      r.value.(image := e.image, footer := e.footer) == e
  {
    var e :- if card.supertype == "Pokémon" then PokemonEmbedOf(card)
             else if card.supertype == "Trainer" || card.supertype == "Energy" then TrainerEmbedOf(card)
             else Failure(AttributeError);
    Success(e.(image := Some(card.image), footer := Some(Footer(FooterTextOf(card, cardSet), cardSet.symbol))))
  }

  /** The embed's footer and image are the card's and its set's; an embed is made for
      Pokémon, Trainer and Energy cards only. */
  lemma EmbedCreateShape(card: Card, cardSet: CardSet)
    ensures EmbedCreateOf(card, cardSet).Success? ==>
      && card.supertype in {"Pokémon", "Trainer", "Energy"}
      && EmbedCreateOf(card, cardSet).value.image == Some(card.image)
      && EmbedCreateOf(card, cardSet).value.footer == Some(Footer(FooterTextOf(card, cardSet), cardSet.symbol))
    ensures card.supertype !in {"Pokémon", "Trainer", "Energy"} ==>
      EmbedCreateOf(card, cardSet) == Failure(AttributeError)
  {
  }

  function TraitFields(ancient: Option<Trait>): seq<Field>
  {
    if ancient.Some? then [Field("Ancient Trait: " + ancient.value.name, OrBlank(ancient.value.text), true)]
    else []
  }

  /** The title: name, HP when there is one, and the type emoji joined by " / ". */
  function TitleOf(card: Card, typeEmoji: seq<string>): string
  {
    card.name + (if card.hp.Some? then " - HP" + card.hp.value else "") + " - " + Join(" / ", typeEmoji)
  }

  /** The description: first subtype, what it evolves from, and the second subtype on
      its own line. */
  function DescriptionOf(card: Card): string
    requires |card.subtypes| > 0
  {
    card.subtypes[0] + " Pokémon" + EvolvesFromOf(card.evolvesFrom)
      + (if |card.subtypes| > 1 then "\n" + card.subtypes[1] else "")
  }

  /** The rule boxes as the last field's value, one per line, or a blank without any. */
  function RulesValueOf(rules: Option<seq<string>>): string
  {
    if rules.Some? then Terminated(rules.value) else Blank
  }

  /** `pokemon_embed`. Lookups raise in the source's order: a type without emoji, a card
      without subtypes, a card without types, a first type without colour, then attack
      costs and weakness or resistance types without emoji. */
  function PokemonEmbedOf(card: Card): Result<Embed>
  {
    var typeEmoji :- MapAll(EmojiOf, card.types);
    var subtype :- Head(card.subtypes);
    var firstType :- Head(card.types);
    var colour :- ColourOf(firstType);
    var abilities :- MapAll(AbilityFieldOf, OrEmpty(card.abilities));
    var attacks :- MapAll(AttackFieldOf, OrEmpty(card.attacks));
    var wrr :- WrrNameOf(card.weaknesses, card.resistances, card.retreatCost);
    Success(Embed(
      TitleOf(card, typeEmoji), Some(colour), DescriptionOf(card),
      TraitFields(card.ancientTrait) + abilities + attacks + [Field(wrr, RulesValueOf(card.rules), false)],
      None, None))
  }

  method PokemonEmbed(card: Card) returns (r: Result<Embed>)
    ensures r == PokemonEmbedOf(card)
  {
    var typeEmoji := MapAll(EmojiOf, card.types);
    if typeEmoji.Failure? {
      return Failure(typeEmoji.fault);
    }
    var title := card.name;
    if card.hp.Some? {
      title := title + " - HP" + card.hp.value;
    }
    title := title + " - " + Join(" / ", typeEmoji.value);
    if |card.subtypes| == 0 {
      return Failure(IndexError);
    }
    var desc := card.subtypes[0] + " Pokémon";
    desc := desc + EvolvesFromOf(card.evolvesFrom);
    if |card.subtypes| > 1 {
      desc := desc + ("\n" + card.subtypes[1]);
    }
    if |card.types| == 0 {
      return Failure(IndexError);
    }
    var colour := ColourOf(card.types[0]);
    if colour.Failure? {
      return Failure(colour.fault);
    }
    assert title == TitleOf(card, typeEmoji.value);
    assert desc == DescriptionOf(card);
    var embed := Embed(title, Some(colour.value), desc, [], None, None);
    ghost var start := embed;

    if card.ancientTrait.Some? {
      var ancient := card.ancientTrait.value;
      embed := AddField(embed, Field("Ancient Trait: " + ancient.name, OrBlank(ancient.text), true));
    }
    assert embed == start.(fields := TraitFields(card.ancientTrait));

    embed := AddAbilityFields(embed, OrEmpty(card.abilities));
    ghost var abilityFields := MapAll(AbilityFieldOf, OrEmpty(card.abilities)).value;
    assert embed == start.(fields := TraitFields(card.ancientTrait) + abilityFields);

    ghost var before := embed;
    var withAttacks := AddAttackFields(embed, OrEmpty(card.attacks));
    if withAttacks.Failure? {
      return Failure(withAttacks.fault);
    }
    embed := withAttacks.value;
    ghost var attackFields := MapAll(AttackFieldOf, OrEmpty(card.attacks)).value;
    assert embed == before.(fields := before.fields + attackFields);
    assert embed == start.(fields := TraitFields(card.ancientTrait) + abilityFields + attackFields);

    var wrr := WrrName(card.weaknesses, card.resistances, card.retreatCost);
    if wrr.Failure? {
      return Failure(wrr.fault);
    }
    var rules := RulesValue(card.rules);
    embed := AddField(embed, Field(wrr.value, rules, false));
    return Success(embed);
  }

  /** The rule-box loop of `pokemon_embed`: one rule per line, or a blank without rules. */
  method RulesValue(rules: Option<seq<string>>) returns (v: string)
    ensures v == RulesValueOf(rules)
  {
    if rules.None? {
      return Blank;
    }
    var all := rules.value;
    v := "";
    for i := 0 to |all|
      invariant v == Terminated(all[..i])
    {
      assert all[..i + 1][..i] == all[..i];
      v := v + all[i] + "\n";
    }
    assert all[..|all|] == all;
  }

  /** `trainer_embed`: the name, the supertype with the subtype list, and one unnamed
      field per rule. A card whose rules are None cannot be iterated. */
  function TrainerEmbedOf(card: Card): Result<Embed>
  {
    if card.rules.None? then Failure(TypeError)
    else Success(Embed(card.name, None, card.supertype + " - " + ListRepr(card.subtypes),
                       RuleFields(card.rules.value), None, None))
  }

  method TrainerEmbed(card: Card) returns (r: Result<Embed>)
    ensures r == TrainerEmbedOf(card)
  {
    if card.rules.None? {
      return Failure(TypeError);
    }
    var rules := card.rules.value;
    var desc := card.supertype + " - " + ListRepr(card.subtypes);
    var embed := Embed(card.name, None, desc, [], None, None);
    for i := 0 to |rules|
      invariant embed == Embed(card.name, None, desc, RuleFields(rules[..i]), None, None)
    {
      assert RuleFields(rules[..i + 1]) == RuleFields(rules[..i]) + [Field(Blank, rules[i], true)];
      embed := AddField(embed, Field(Blank, rules[i], true));
    }
    assert rules[..|rules|] == rules;
    return Success(embed);
  }

  /* ---- text ---- */

  function TraitTextOf(ancient: Option<Trait>): string
  {
    if ancient.Some? then "Ancient Trait: " + ancient.value.name + "\n" + ancient.value.text + "\n" + "\n"
    else ""
  }

  /** The opening lines of a Pokémon's text: name and types, HP, subtype list, evolution
      and second subtype. */
  function PokemonHeadOf(card: Card): string
  {
    card.name + " - " + Join("/", card.types)
      + (if card.hp.Some? then " - HP" + card.hp.value + "\n" else "\n")
      + ListRepr(card.subtypes) + " Pokemon" + EvolvesFromOf(card.evolvesFrom)
      + (if |card.subtypes| > 1 then card.subtypes[1] else "")
      + "\n\n"
  }

  function RetreatTextOf(retreat: Option<seq<string>>): string
  {
    if retreat.Some? then "Retreat: " + NatToString(|retreat.value|) else ""
  }

  /** The Pokémon part of `text`. Only an attack cost without shorthand can raise. */
  function PokemonTextOf(card: Card): Result<string>
  {
    var abilities :- FlatMap(AbilityTextOf, OrEmpty(card.abilities));
    var attacks :- FlatMap(AttackTextOf, OrEmpty(card.attacks));
    var weak :- FlatMap(WeaknessLineOf, OrEmpty(card.weaknesses));
    var res :- FlatMap(ResistanceLineOf, OrEmpty(card.resistances));
    var rules :- FlatMap(RuleOf, OrEmpty(card.rules));
    Success(PokemonHeadOf(card) + TraitTextOf(card.ancientTrait) + abilities + attacks + weak + res
      + RetreatTextOf(card.retreatCost) + (if card.rules.Some? then "\n\n" + rules else ""))
  }

  method PokemonText(card: Card) returns (r: Result<string>)
    ensures r == PokemonTextOf(card)
  {
    var out := PokemonHeadOf(card);
    out := out + TraitTextOf(card.ancientTrait);
    FlatMapSucceeds(AbilityTextOf, OrEmpty(card.abilities));
    var abilities := RenderEach(AbilityTextOf, OrEmpty(card.abilities));
    out := out + abilities.value;

    var attacks := OrEmpty(card.attacks);
    var attackText := "";
    for i := 0 to |attacks|
      invariant FlatMap(AttackTextOf, attacks[..i]) == Success(attackText)
    {
      assert attacks[..i + 1][..i] == attacks[..i];
      var t := AttackText(attacks[i]);
      if t.Failure? {
        FlatMapFailureSticks(AttackTextOf, attacks, i + 1);
        return Failure(t.fault);
      }
      attackText := attackText + t.value;
    }
    assert attacks[..|attacks|] == attacks;
    out := out + attackText;

    FlatMapSucceeds(WeaknessLineOf, OrEmpty(card.weaknesses));
    var weak := RenderEach(WeaknessLineOf, OrEmpty(card.weaknesses));
    out := out + weak.value;
    FlatMapSucceeds(ResistanceLineOf, OrEmpty(card.resistances));
    var res := RenderEach(ResistanceLineOf, OrEmpty(card.resistances));
    out := out + res.value;
    out := out + RetreatTextOf(card.retreatCost);
    FlatMapSucceeds(RuleOf, OrEmpty(card.rules));
    var rules := RenderEach(RuleOf, OrEmpty(card.rules));
    if card.rules.Some? {
      out := out + ("\n\n" + rules.value);
    } else {
      assert out == out + "";
    }
    return Success(out);
  }

  /** The Trainer and Energy part of `text`: name, subtype list and the rules separated by
      blank lines. A card whose rules are None cannot be joined. */
  function TrainerTextOf(card: Card): Result<string>
  {
    if card.rules.None? then Failure(TypeError)
    else Success(card.name + "\n" + ListRepr(card.subtypes) + "\n\n" + Join("\n\n", card.rules.value) + "\n")
  }

  function CardBodyOf(card: Card): Result<string>
  {
    if card.supertype == "Pokémon" then PokemonTextOf(card)
    else if card.supertype == "Trainer" || card.supertype == "Energy" then TrainerTextOf(card)
    else Success("")
  }

  /** The closing line of `text`: set name, number out of the printed total, legalities. */
  function SetLineOf(card: Card, cardSet: CardSet): string
  {
    "\n\n" + cardSet.name + " - " + card.number + "/" + NatToString(cardSet.printedTotal) + TextLegality(cardSet.legalities)
  }

  /** `text` as written: it reads the card's set from whatever `parse_card` returned, so a
      refusal message raises AttributeError instead of being shown. */
  function TextOf(api: Api, name: string, setText: string): Result<string>
  {
    match ParseCard(api, name, setText)
    case Refused(_) => Failure(AttributeError)
    case Found(card) =>
      var cardSet := api.findSet(card.cardSet.id);
      var body :- CardBodyOf(card);
      Success("```\n" + body + SetLineOf(card, cardSet) + "```\n")
  }

  method Text(api: Api, name: string, setText: string) returns (r: Result<string>)
    ensures r == TextOf(api, name, setText)
  {
    var lookup := ParseCard(api, name, setText);
    if lookup.Refused? {
      return Failure(AttributeError);
    }
    var card := lookup.card;
    var cardSet := api.findSet(card.cardSet.id);
    var body := CardBody(card);
    if body.Failure? {
      return Failure(body.fault);
    }
    var out := "```\n";
    out := out + body.value;
    out := out + SetLineOf(card, cardSet);
    out := out + "```\n";
    return Success(out);
  }

  /** The part of `text` that depends on the supertype; other supertypes add nothing. */
  method CardBody(card: Card) returns (r: Result<string>)
    ensures r == CardBodyOf(card)
  {
    if card.supertype == "Pokémon" {
      r := PokemonText(card);
    } else if card.supertype == "Trainer" || card.supertype == "Energy" {
      if card.rules.None? {
        return Failure(TypeError);
      }
      var out := card.name + "\n";
      out := out + (ListRepr(card.subtypes) + "\n\n");
      out := out + (Join("\n\n", card.rules.value) + "\n");
      assert out == card.name + "\n" + ListRepr(card.subtypes) + "\n\n" + Join("\n\n", card.rules.value) + "\n";
      r := Success(out);
    } else {
      r := Success("");
    }
  }

  /** The card text is fenced: it opens and closes with a code block marker. */
  lemma TextFenced(api: Api, name: string, setText: string)
    requires TextOf(api, name, setText).Success?
    ensures var t := TextOf(api, name, setText).value;
      && |t| >= 8
      && t[..4] == "```\n"
      && t[|t| - 4..] == "```\n"
  {
    var card := ParseCard(api, name, setText).card;
    var cardSet := api.findSet(card.cardSet.id);
    var body := CardBodyOf(card).value;
    var t := "```\n" + body + SetLineOf(card, cardSet) + "```\n";
    assert TextOf(api, name, setText).value == t;
    assert t[..4] == "```\n";
    assert t[|t| - 4..] == "```\n";
  }

  /** The intended `text`: a refusal from `parse_card` is sent back as it is, as `show`
      does; otherwise it is `text` as written. */
  function TextReplyOf(api: Api, name: string, setText: string): (r: Result<string>)
    ensures ParseCard(api, name, setText).Refused? ==> r == Success(ParseCard(api, name, setText).message)
    ensures r.Failure? ==> ParseCard(api, name, setText).Found?
  {
    match ParseCard(api, name, setText)
    case Refused(message) => Success(message)
    case Found(_) => TextOf(api, name, setText)
  }

  /** `text` as written raises on every refusal (for example a set without the named card),
      where the intended version answers with the refusal message, like `show` does. On a
      card that was found the two agree. */
  lemma TextRefusalRaises(api: Api, name: string, setText: string)
    ensures ParseCard(api, name, setText).Refused? ==>
      && TextOf(api, name, setText) == Failure(AttributeError)
      && TextReplyOf(api, name, setText) == Success(ParseCard(api, name, setText).message)
      && ShowOf(api, name, setText) == Success(Plain(ParseCard(api, name, setText).message))
    ensures ParseCard(api, name, setText).Found? ==>
      TextReplyOf(api, name, setText) == TextOf(api, name, setText)
  {
  }

  /* ---- the card command ---- */

  /** The `card` command: search, then route the reply by its result count. */
  function CardCommandOf(api: Api, name: string): (r: Result<Delivery>)
    ensures r.Success? <==> SearchOf(api, name).Success?
    ensures r.Success? ==>
      && r.value.message == SearchOf(api, name).value.message
      && (r.value.notice.Some? <==> SearchOf(api, name).value.count > MaxLines)
  {
    var reply :- SearchOf(api, name);
    Success(Deliver(reply.message, reply.count))
  }

  /* ---- properties ---- */

  /** The empty name is answered with an empty reply and no query. */
  lemma EmptyNameNoQuery(api: Api)
    ensures SearchPlan("") == Immediate("", 0)
    ensures SearchOf(api, "") == Success(Reply(Plain(""), 0))
  {
  }

  /** A name ending in " ex" (in any case) issues two queries: the lower-cased name, then
      the same with every " ex" turned into "-ex", which therefore ends in "-ex"; the
      results are the first query's followed by the second's. */
  lemma ExNameQueriesBoth(api: Api, name: string)
    requires EndsWith(Lower(name), " ex")
    ensures var low := Lower(name); var dashed := ReplaceAll(low, " ex", "-ex");
      && SearchPlan(name) == Issue([ByName(low), ByName(dashed)])
      && EndsWith(dashed, "-ex")
      && Fetched(api.where, SearchPlan(name).queries) == api.where(ByName(low)) + api.where(ByName(dashed))
  {
    var low := Lower(name);
    ReplaceAllKeepsSuffix(low, " ex", "-ex");
    FetchedPair(api.where, ByName(low), ByName(ReplaceAll(low, " ex", "-ex")));
  }

  /** Otherwise a name ending in " gx" issues one query, ending in "-gx". */
  lemma GxNameQueriesDashed(name: string)
    requires !EndsWith(Lower(name), " ex") && EndsWith(Lower(name), " gx")
    ensures var q := ReplaceAll(Lower(name), " gx", "-gx");
      SearchPlan(name) == Issue([ByName(q)]) && EndsWith(q, "-gx")
  {
    ReplaceAllKeepsSuffix(Lower(name), " gx", "-gx");
  }

  /** Otherwise a name ending in " delta" issues one query, ending in " δ". */
  lemma DeltaNameQueriesSymbol(name: string)
    requires !EndsWith(Lower(name), " ex") && !EndsWith(Lower(name), " gx")
    requires EndsWith(Lower(name), " delta")
    ensures var q := ReplaceAll(Lower(name), " delta", " \U{03B4}");
      SearchPlan(name) == Issue([ByName(q)]) && EndsWith(q, " \U{03B4}")
  {
    ReplaceAllKeepsSuffix(Lower(name), " delta", " \U{03B4}");
  }

  /** "N" (in either case) gets the fixed listing, with no query. */
  lemma NNameFixedListing(api: Api, name: string)
    requires Lower(name) == "n"
    ensures SearchPlan(name) == Immediate(NListing(), 6)
    ensures SearchOf(api, name) == Success(Reply(Plain(NListing()), 6))
  {
    assert |name| == 1;
  }

  /** Each line of the fixed listing is one line. */
  lemma NLinesSingle()
    ensures forall i :: 0 <= i < |NLines| ==> SingleLine(NLines[i])
  {
    forall i | 0 <= i < |NLines| ensures SingleLine(NLines[i]) {
      NLineSingle(i);
    }
  }

  lemma NLineSingle(i: nat)
    requires i < |NLines|
    ensures SingleLine(NLines[i])
  {
    if i < 2 {
      NLineSingleFirst(i);
    } else if i < 4 {
      NLineSingleMiddle(i);
    } else {
      NLineSingleLast(i);
    }
  }

  lemma NLineSingleFirst(i: nat)
    requires i < 2
    ensures SingleLine(NLines[i])
  {
    if i == 0 {
      assert NLines[0] == "Matches for search 'N'";
    } else {
      assert NLines[1] == "N - Noble Victories 92/101 (`bw3-92`)";
    }
  }

  lemma NLineSingleMiddle(i: nat)
    requires 2 <= i < 4
    ensures SingleLine(NLines[i])
  {
    if i == 2 {
      assert NLines[2] == "N - Noble Victories 101/101 (`bw3-101`)";
    } else {
      assert NLines[3] == "N - Dark Explorers 96/108 (`bw5-96`)";
    }
  }

  lemma NLineSingleLast(i: nat)
    requires 4 <= i < |NLines|
    ensures SingleLine(NLines[i])
  {
    if i == 4 {
      assert NLines[4] == "N - BW Black Star Promos BW100 (`bwp-BW100`)";
    } else {
      NLineSingleFatesCollide(i);
    }
  }

  lemma NLineSingleFatesCollide(i: nat)
    requires 5 <= i < |NLines|
    ensures SingleLine(NLines[i])
  {
    if i == 5 {
      assert NLines[5] == "N - Fates Collide 105/124 (`xy10-105`)";
    } else {
      assert NLines[6] == "N - Fates Collide 105a/124 (`xy10-105a`)";
    }
  }

  /** The fixed listing is a header line and six card lines, matching its count. */
  lemma NListingLines()
    ensures Split(NListing(), '\n') == NLines + [""] && |NLines| == 1 + 6
  {
    NLinesSingle();
    SplitTerminated(NLines);
  }

  /** Any other name is looked up with one quoted-name query ordered by release date. */
  lemma PlainNameQuoted(name: string)
    requires name != "" && Lower(name) != "n"
    requires !EndsWith(Lower(name), " ex") && !EndsWith(Lower(name), " gx") && !EndsWith(Lower(name), " delta")
    ensures SearchPlan(name) == Issue([ByText("name:\"" + name + "\"", "set.releaseDate")])
  {
  }

  /** No result gives the "No matches" reply with count 0; one result gives `show`'s
      reply for that card and its set id, with count 1. */
  lemma FewResults(api: Api, name: string)
    requires SearchPlan(name).Issue?
    ensures var cards := Fetched(api.where, SearchPlan(name).queries);
      && (|cards| == 0 ==> SearchOf(api, name) == Success(Reply(Plain(NoMatches(name)), 0)))
      && (|cards| == 1 ==>
            SearchOf(api, name) == (var m :- ShowOf(api, cards[0].name, cards[0].cardSet.id); Success(Reply(m, 1))))
  {
  }

  /** With two or more results the reply is the header line and then exactly one line per
      card, in query order, and the count is the number of cards. */
  lemma ListingOneLinePerCard(api: Api, name: string)
    requires SearchPlan(name).Issue?
    requires |Fetched(api.where, SearchPlan(name).queries)| >= 2
    requires SingleLine(name)
    requires forall c :: c in Fetched(api.where, SearchPlan(name).queries) ==>
      SingleLine(c.name) && SingleLine(c.cardSet.series) && SingleLine(c.number) && SingleLine(c.cardSet.id)
    ensures var cards := Fetched(api.where, SearchPlan(name).queries);
      && SearchOf(api, name).Success?
      && SearchOf(api, name).value.count == |cards|
      && SearchOf(api, name).value.message.Plain?
      && Split(SearchOf(api, name).value.message.text, '\n')
         == [HeaderLine(name)] + LinesOf(ListingLineOf, cards) + [""]
  {
    var cards := Fetched(api.where, SearchPlan(name).queries);
    forall i | 0 <= i < |cards| ensures SingleLine(ListingLineOf(cards[i])) {
      assert cards[i] in cards;
      NatToStringSingleLine(cards[i].cardSet.printedTotal);
    }
    ListingSplits(name, ListingLineOf, cards);
  }

  /** The `card` command sends its reply to the requester, after a notice in the channel,
      exactly when the search found more than MaxLines results; otherwise to the channel. */
  lemma CardCommandRouting(api: Api, name: string)
    ensures SearchOf(api, name).Failure? ==> CardCommandOf(api, name).Failure?
    ensures SearchOf(api, name).Success? ==>
      var reply := SearchOf(api, name).value;
      var d := CardCommandOf(api, name).value;
      && CardCommandOf(api, name).Success?
      && d.message == reply.message
      && (d.destination == Author <==> reply.count > MaxLines)
      && (d.notice == Some(TooLongNotice) <==> reply.count > MaxLines)
  {
  }
}
