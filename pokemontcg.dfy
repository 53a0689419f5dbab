/** The card commands over the older SDK schema: `search` with its release-date ordering
    and its single-letter guard, `parse_card`, `show`, `embed_create`, `pokemon_embed`,
    `trainer_embed` and `text`. The SDK's queries are the fields of an `Api` value.

    Two places in `search` do not do what they evidently mean to; each is modelled as
    written (`SearchPlanAsWritten`, `SearchAsWrittenOf`, `CardCommandAsWritten`) and as
    intended (`SearchPlan`, `SearchOf`, `CardCommandOf`), with lemmas showing the
    difference. */
module PokemonTcg {
  import opened Outcomes
  import opened Collect
  import opened Strings
  import opened Tables
  import opened StableSort
  import opened Cards

  /* ---- records ---- */

  /** A set. `releaseDate` is "MM/DD/YYYY" as the SDK returns it. */
  datatype CardSet = CardSet(
    code: string,
    name: string,
    totalCards: nat,
    standardLegal: bool,
    expandedLegal: bool,
    releaseDate: string,
    symbolUrl: string)

  datatype Card = Card(
    id: string,
    name: string,
    supertype: string,
    subtype: string,
    hp: Option<string>,
    types: seq<string>,
    evolvesFrom: Option<string>,
    ability: Option<Ability>,
    attacks: Option<seq<Attack>>,
    weaknesses: Option<seq<TypeValue>>,
    resistances: Option<seq<TypeValue>>,
    retreatCost: Option<seq<string>>,
    text: Option<seq<string>>,
    number: string,
    setCode: string,
    imageUrl: string)

  /** The two ways the code calls `Card.where`. */
  datatype Query =
    | ByName(name: string)                  // Card.where(name=...)
    | InSet(name: string, setCode: string)  // Card.where(name=..., setCode=...)

  /** The SDK: `Card.where`, `Card.find` (None when there is no such card) and `Set.find`. */
  datatype Api = Api(where: Query -> seq<Card>, find: string -> Option<Card>, findSet: string -> CardSet)

  /* ---- search: the queries ---- */

  /** The queries `search` issues, as written: the " delta" branch calls `replace` with one
      argument, which raises TypeError before any query is made. */
  function SearchPlanAsWritten(name: string): (r: Result<Plan<Query>>)
    ensures r.Failure? ==> r.fault == TypeError
  {
    var low := Lower(name);
    if name == "" then Success(Immediate("", 0))
    else if EndsWith(low, " ex") then Success(Issue([ByName(low), ByName(ReplaceAll(low, " ex", "-ex"))]))
    else if EndsWith(low, " gx") then Success(Issue([ByName(ReplaceAll(low, " gx", "-gx"))]))
    else if EndsWith(low, " delta") then Failure(TypeError)
    else Success(Issue([ByName(name)]))
  }

  /** The queries `search` evidently means to issue: the " delta" suffix becomes " δ", as
      in the newer schema's copy of this code. */
  function SearchPlan(name: string): (p: Plan<Query>)
    ensures name == "" <==> p.Immediate?
    ensures p.Immediate? ==> p == Immediate("", 0)
  {
    var low := Lower(name);
    if name == "" then Immediate("", 0)
    else if EndsWith(low, " ex") then Issue([ByName(low), ByName(ReplaceAll(low, " ex", "-ex"))])
    else if EndsWith(low, " gx") then Issue([ByName(ReplaceAll(low, " gx", "-gx"))])
    else if EndsWith(low, " delta") then Issue([ByName(ReplaceAll(low, " delta", " \U{03B4}"))])
    else Issue([ByName(name)])
  }

  /** The two plans agree except on " delta" names, which only the intended one handles. */
  lemma SearchPlansAgree(name: string)
    ensures SearchPlanAsWritten(name).Success? ==> SearchPlanAsWritten(name).value == SearchPlan(name)
    ensures SearchPlanAsWritten(name).Failure? <==>
      name != "" && !EndsWith(Lower(name), " ex") && !EndsWith(Lower(name), " gx")
      && EndsWith(Lower(name), " delta")
  {
  }

  /* ---- search: the single-letter guard ---- */

  const NText: string :=
    "Matches for search 'N':\nN - Noble Victories 92/101 (`bw3-92`)\nN - Noble Victories 101/101 (`bw3-101`)\nN - Dark Explorers 96/108 (`bw5-96`)\nN - BW Black Star Promo 100 (`bwp-100`)\nN - Fates Collide 105/124 (`xy10-105`)\nN - Fates Collide 105a/124 (`xy10-105a`)"

  const OneLetter: string := "Only one letter was entered! The list will take too long!"

  /** After the queries, a one-character name is answered with a fixed text: the listing
      of the six "N" cards for exactly "N", a refusal for any other letter. */
  function GuardOf(name: string): (r: Option<string>)
    ensures r.Some? <==> |name| == 1
    ensures r.Some? ==> r.value == if name == "N" then NText else OneLetter
  {
    if |name| == 1 && name == "N" then Some(NText)
    else if |name| == 1 then Some(OneLetter)
    else None
  }

  /** The count the intended `search` pairs the guard's text with: the six cards of the
      "N" listing, and nothing for a refusal. */
  function GuardCount(name: string): nat
  {
    if name == "N" then 6 else 0
  }

  /* ---- search: the listing ---- */

  /** A card with its set, the set's release date rewritten to ISO form. */
  datatype Entry = Entry(card: Card, cardSet: CardSet)

  /** "MM/DD/YYYY" to "YYYY-MM-DD"; a date with fewer than three '/'-separated parts
      raises IndexError. */
  function IsoDate(date: string): (r: Result<string>)
    ensures r.Success? <==> |Split(date, '/')| >= 3
    ensures r.Failure? ==> r.fault == IndexError
  {
    var parts := Split(date, '/');
    if |parts| < 3 then Failure(IndexError)
    else Success(parts[2] + "-" + parts[0] + "-" + parts[1])
  }

  /** A well-formed date is rewritten field by field: year, month, day. */
  lemma IsoDateRewrite(month: string, day: string, year: string)
    requires '/' !in month && '/' !in day && '/' !in year
    ensures IsoDate(month + "/" + day + "/" + year) == Success(year + "-" + month + "-" + day)
  {
    assert month + "/" + day + "/" + year == month + ['/'] + (day + ['/'] + year);
    SplitAtFirst(month, '/', day + ['/'] + year);
    SplitAtFirst(day, '/', year);
    SplitWithoutSeparator(year, '/');
  }

  /** One card with its set, as `Set.find` returns it and with the date rewritten. */
  function EntryOf(api: Api, card: Card): Result<Entry>
  {
    var cardSet := api.findSet(card.setCode);
    var iso :- IsoDate(cardSet.releaseDate);
    Success(Entry(card, cardSet.(releaseDate := iso)))
  }

  function EntryFor(api: Api): Card -> Result<Entry>
  {
    card => EntryOf(api, card)
  }

  /** The sort key: the rewritten release date. */
  function ReleaseKey(e: Entry): string
  {
    e.cardSet.releaseDate
  }

  /** One line of the listing: name, set name, number out of the set's total, and the id
      `show` accepts. */
  function ListingLineOf(e: Entry): string
  {
    e.card.name + " - " + e.cardSet.name + " " + e.card.number + "/" + NatToString(e.cardSet.totalCards)
      + " (`" + e.cardSet.code + "-" + e.card.number + "`)"
  }

  /** What `search` does with the results once the guard has let the name through: the
      "No matches" reply, `show` for a single card, or the listing ordered by release. */
  function AnswerOf(api: Api, name: string, cards: seq<Card>): (r: Result<Reply>)
    ensures r.Success? ==> r.value.count == |cards|
    ensures |cards| != 1 ==> (r.Success? <==> |cards| == 0 || MapAll(EntryFor(api), cards).Success?)
  {
    if |cards| == 0 then Success(Reply(Plain(NoMatches(name)), 0))
    else if |cards| == 1 then
      var m :- ShowOf(api, cards[0].name, cards[0].setCode);
      Success(Reply(m, 1))
    else
      var entries :- MapAll(EntryFor(api), cards);
      var sorted := SortBy(ReleaseKey, entries);
      MapAllPointwise(EntryFor(api), cards);
      SortByPermutation(ReleaseKey, entries);
      assert |sorted| == |multiset(sorted)| == |multiset(entries)| == |cards|;
      Success(Reply(Plain(ListingOf(name, ListingLineOf, sorted)), |sorted|))
  }

  /** What `search` returns: a (message, count) pair, or for a one-letter name a bare string. */
  datatype Outcome = Pair(reply: Reply) | Bare(text: string)

  /** `search` as written. */
  function SearchAsWrittenOf(api: Api, name: string): Result<Outcome>
  {
    var plan :- SearchPlanAsWritten(name);
    match plan
    case Immediate(text, count) => Success(Pair(Reply(Plain(text), count)))
    case Issue(queries) =>
      var cards := Fetched(api.where, queries);
      match GuardOf(name)
      case Some(text) => Success(Bare(text))
      case None =>
        var reply :- AnswerOf(api, name, cards);
        Success(Pair(reply))
  }

  /** `search` as evidently intended: the " delta" rewrite works, and the guard's text
      comes as a (message, count) pair like every other answer. */
  function SearchOf(api: Api, name: string): (r: Result<Reply>)
    ensures name == "" ==> r == Success(Reply(Plain(""), 0))
    ensures |name| == 1 ==>
      r == Success(Reply(Plain(if name == "N" then NText else OneLetter), GuardCount(name)))
    ensures |name| > 1 && r.Success? ==> r.value.count == |Fetched(api.where, SearchPlan(name).queries)|
  {
    match SearchPlan(name)
    case Immediate(text, count) => Success(Reply(Plain(text), count))
    case Issue(queries) =>
      var cards := Fetched(api.where, queries);
      match GuardOf(name)
      case Some(text) => Success(Reply(Plain(text), GuardCount(name)))
      case None => AnswerOf(api, name, cards)
  }

  /** `search` as written, step by step: the queries, the guard, then for two or more
      cards each set fetched and its date rewritten, the list sorted by date, and the
      listing built. */
  method Search(api: Api, name: string) returns (r: Result<Outcome>)
    ensures r == SearchAsWrittenOf(api, name)
  {
    var plan := SearchPlanAsWritten(name);
    if plan.Failure? {
      return Failure(plan.fault);
    }
    if plan.value.Immediate? {
      return Success(Pair(Reply(Plain(plan.value.text), plan.value.count)));
    }
    var queries := plan.value.queries;
    var cards: seq<Card> := [];
    for i := 0 to |queries|
      invariant cards == Fetched(api.where, queries[..i])
    {
      assert queries[..i + 1][..i] == queries[..i];
      cards := cards + api.where(queries[i]);
    }
    assert queries[..|queries|] == queries;

    if |name| == 1 && name == "N" {
      return Success(Bare(NText));
    } else if |name| == 1 {
      return Success(Bare(OneLetter));
    }
    if |cards| == 0 {
      return Success(Pair(Reply(Plain(NoMatches(name)), 0)));
    }
    if |cards| == 1 {
      var m := ShowOf(api, cards[0].name, cards[0].setCode);
      if m.Failure? {
        return Failure(m.fault);
      }
      return Success(Pair(Reply(m.value, 1)));
    }

    var dated := DatedEntries(api, cards);
    if dated.Failure? {
      return Failure(dated.fault);
    }
    var entries := SortBy(ReleaseKey, dated.value);
    var out := Listing(name, ListingLineOf, entries);
    return Success(Pair(Reply(Plain(out), |entries|)));
  }

  /** The loop of `search` that fetches each card's set and rewrites its release date, in
      query order; the first date with fewer than three parts raises. */
  method DatedEntries(api: Api, cards: seq<Card>) returns (r: Result<seq<Entry>>)
    ensures r == MapAll(EntryFor(api), cards)
  {
    var entries: seq<Entry> := [];
    for i := 0 to |cards|
      invariant MapAll(EntryFor(api), cards[..i]) == Success(entries)
    {
      assert cards[..i + 1][..i] == cards[..i];
      var cardSet := api.findSet(cards[i].setCode);
      var parts := Split(cardSet.releaseDate, '/');
      if |parts| < 3 {
        assert EntryFor(api)(cards[i]) == Failure(IndexError);
        MapAllFailureSticks(EntryFor(api), cards, i + 1);
        return Failure(IndexError);
      }
      cardSet := cardSet.(releaseDate := parts[2] + "-" + parts[0] + "-" + parts[1]);
      assert EntryFor(api)(cards[i]) == Success(Entry(cards[i], cardSet));
      entries := entries + [Entry(cards[i], cardSet)];
    }
    assert cards[..|cards|] == cards;
    return Success(entries);
  }

  /* ---- parse_card and show ---- */

  /** `parse_card`: a set text with a dash is a card id looked up directly; otherwise the
      name is searched within the set and must match exactly one card. */
  function ParseCard(api: Api, name: string, setText: string): (r: Lookup<Card>)
    ensures '-' in setText ==>
      (r.Found? <==> api.find(setText).Some?)
      && (r.Found? ==> r.card == api.find(setText).value)
      && (r.Refused? ==> r.message == NoCard(setText))
    ensures '-' !in setText ==>
      var cards := api.where(InSet(name, setText));
      (r.Found? <==> |cards| == 1)
      && (r.Found? ==> r.card == cards[0])
      && (r.Refused? ==> r.message == if cards == [] then NoResults(name, setText)
                                     else TooMany(name, setText, cards[0].number))
  {
    if '-' in setText then
      match api.find(setText)
      case None => Refused(NoCard(setText))
      case Some(card) => Found(card)
    else
      var cards := api.where(InSet(name, setText));
      if |cards| == 0 then Refused(NoResults(name, setText))
      else if |cards| > 1 then Refused(TooMany(name, setText, cards[0].number))
      else Found(cards[0])
  }

  /** `show`: the refusal message, or the card's embed built with its set. */
  function ShowOf(api: Api, name: string, setText: string): (r: Result<Message>)
    ensures ParseCard(api, name, setText).Refused? ==>
      r == Success(Plain(ParseCard(api, name, setText).message))
    ensures ParseCard(api, name, setText).Found? ==>
      var card := ParseCard(api, name, setText).card;
      r == (var e :- EmbedCreateOf(card, api.findSet(card.setCode)); Success(Rich(e)))
  {
    match ParseCard(api, name, setText)
    case Refused(message) => Success(Plain(message))
    case Found(card) =>
      var e :- EmbedCreateOf(card, api.findSet(card.setCode));
      Success(Rich(e))
  }

  /* ---- legality ---- */

  /** Exactly one format is named: Standard if the set is standard-legal, otherwise
      Expanded if it is expanded-legal, otherwise Legacy. */
  function LegalitySuffix(cardSet: CardSet): (r: string)
    ensures r in {" (Standard)", " (Expanded)", " (Legacy)"}
    ensures r == " (Standard)" <==> cardSet.standardLegal
    ensures r == " (Expanded)" <==> !cardSet.standardLegal && cardSet.expandedLegal
    ensures r == " (Legacy)" <==> !cardSet.standardLegal && !cardSet.expandedLegal
  {
    if cardSet.standardLegal then " (Standard)"
    else if cardSet.expandedLegal then " (Expanded)"
    else " (Legacy)"
  }

  /* ---- embeds ---- */

  /** The embed footer: set name, number out of the set's total, and the legality. */
  function FooterTextOf(card: Card, cardSet: CardSet): string
  {
    cardSet.name + " - " + card.number + "/" + NatToString(cardSet.totalCards) + " " + LegalitySuffix(cardSet)
  }

  /** `embed_create`: a Pokémon or a Trainer/Energy embed, with the card image and the set
      footer. Any other supertype leaves the embed None, and setting its image raises. */
  function EmbedCreateOf(card: Card, cardSet: CardSet): (r: Result<Embed>)
    ensures r.Success? <==>
      || (card.supertype == "Pokémon" && PokemonEmbedOf(card).Success?)
      || ((card.supertype == "Trainer" || card.supertype == "Energy") && TrainerEmbedOf(card).Success?)
    ensures r.Success? ==>
      var e := if card.supertype == "Pokémon" then PokemonEmbedOf(card).value else TrainerEmbedOf(card).value;
      r.value.(image := e.image, footer := e.footer) == e
  {
    var e :- if card.supertype == "Pokémon" then PokemonEmbedOf(card)
             else if card.supertype == "Trainer" || card.supertype == "Energy" then TrainerEmbedOf(card)
             else Failure(AttributeError);
    Success(e.(image := Some(card.imageUrl), footer := Some(Footer(FooterTextOf(card, cardSet), cardSet.symbolUrl))))
  }

  /** The embed's footer ends with exactly one legality, and an embed is made for Pokémon,
      Trainer and Energy cards only. */
  lemma EmbedCreateShape(card: Card, cardSet: CardSet)
    ensures EmbedCreateOf(card, cardSet).Success? ==>
      && card.supertype in {"Pokémon", "Trainer", "Energy"}
      && EmbedCreateOf(card, cardSet).value.image == Some(card.imageUrl)
      && EmbedCreateOf(card, cardSet).value.footer.Some?
      && EndsWith(EmbedCreateOf(card, cardSet).value.footer.value.text, LegalitySuffix(cardSet))
    ensures card.supertype !in {"Pokémon", "Trainer", "Energy"} ==>
      EmbedCreateOf(card, cardSet) == Failure(AttributeError)
  {
    var t := FooterTextOf(card, cardSet);
    var prefix := cardSet.name + " - " + card.number + "/" + NatToString(cardSet.totalCards) + " ";
    assert t == prefix + LegalitySuffix(cardSet);
    assert t[|t| - |LegalitySuffix(cardSet)|..] == LegalitySuffix(cardSet);
  }

  function AbilityFields(ability: Option<Ability>): seq<Field>
  {
    if ability.Some? then [AbilityFieldOf(ability.value).value] else []
  }

  /** The weakness / resistance / retreat field, only when its title is not empty. */
  function WrrFields(wrr: string): seq<Field>
  {
    if wrr != "" then [Field(wrr, Blank, false)] else []
  }

  function TitleOf(card: Card, typeEmoji: seq<string>): string
  {
    card.name + (if card.hp.Some? then " - HP" + card.hp.value else "") + " - " + Join(" / ", typeEmoji)
  }

  function DescriptionOf(card: Card): string
  {
    card.subtype + " Pokémon" + EvolvesFromOf(card.evolvesFrom)
  }

  /** `pokemon_embed`. Lookups raise in the source's order: a type without emoji, a card
      without types, a first type without colour, then attack costs and weakness or
      resistance types without emoji. */
  function PokemonEmbedOf(card: Card): Result<Embed>
  {
    var typeEmoji :- MapAll(EmojiOf, card.types);
    var firstType :- Head(card.types);
    var colour :- ColourOf(firstType);
    var attacks :- MapAll(AttackFieldOf, OrEmpty(card.attacks));
    var wrr :- WrrNameOf(card.weaknesses, card.resistances, card.retreatCost);
    Success(Embed(
      TitleOf(card, typeEmoji), Some(colour), DescriptionOf(card),
      AbilityFields(card.ability) + attacks + WrrFields(wrr),
      None, None))
  }

  method PokemonEmbed(card: Card) returns (r: Result<Embed>)
    ensures r == PokemonEmbedOf(card)
  {
    var typeEmoji := MapAll(EmojiOf, card.types);
    if typeEmoji.Failure? {
      return Failure(typeEmoji.fault);
    }
    var title := card.name;
    if card.hp.Some? {
      title := title + " - HP" + card.hp.value;
    }
    title := title + " - " + Join(" / ", typeEmoji.value);
    var desc := card.subtype + " Pokémon";
    desc := desc + EvolvesFromOf(card.evolvesFrom);
    if |card.types| == 0 {
      return Failure(IndexError);
    }
    var colour := ColourOf(card.types[0]);
    if colour.Failure? {
      return Failure(colour.fault);
    }
    assert title == TitleOf(card, typeEmoji.value);
    var embed := Embed(title, Some(colour.value), desc, [], None, None);
    ghost var start := embed;

    if card.ability.Some? {
      var ab := card.ability.value;
      embed := AddField(embed, Field(ab.kind + ": " + ab.name, OrBlank(ab.text), true));
    }
    assert embed == start.(fields := AbilityFields(card.ability));

    ghost var before := embed;
    var withAttacks := AddAttackFields(embed, OrEmpty(card.attacks));
    if withAttacks.Failure? {
      return Failure(withAttacks.fault);
    }
    embed := withAttacks.value;
    ghost var attackFields := MapAll(AttackFieldOf, OrEmpty(card.attacks)).value;
    assert embed == before.(fields := before.fields + attackFields);
    assert embed == start.(fields := AbilityFields(card.ability) + attackFields);

    var wrr := WrrName(card.weaknesses, card.resistances, card.retreatCost);
    if wrr.Failure? {
      return Failure(wrr.fault);
    }
    if wrr.value != "" {
      embed := AddField(embed, Field(wrr.value, Blank, false));
    } else {
      assert embed.fields == embed.fields + [];
    }
    return Success(embed);
  }

  /** The weakness / resistance / retreat field is there exactly when the card has a
      weakness, a resistance or a retreat cost listed (even an empty list), and it is last. */
  lemma WrrFieldWhenListed(card: Card)
    requires PokemonEmbedOf(card).Success?
    ensures var fields := PokemonEmbedOf(card).value.fields;
      var listed := card.weaknesses.Some? || card.resistances.Some? || card.retreatCost.Some?;
      && |fields| == |AbilityFields(card.ability)| + |OrEmpty(card.attacks)| + (if listed then 1 else 0)
      && (listed ==> fields[|fields| - 1]
                       == Field(WrrNameOf(card.weaknesses, card.resistances, card.retreatCost).value, Blank, false))
  {
    MapAllPointwise(AttackFieldOf, OrEmpty(card.attacks));
    WrrNameEmpty(card.weaknesses, card.resistances, card.retreatCost);
  }

  /** `trainer_embed`: the name, the subtype, and one unnamed field per text paragraph.
      A card whose text is None cannot be iterated. */
  function TrainerEmbedOf(card: Card): Result<Embed>
  {
    if card.text.None? then Failure(TypeError)
    else Success(Embed(card.name, None, card.subtype, RuleFields(card.text.value), None, None))
  }

  method TrainerEmbed(card: Card) returns (r: Result<Embed>)
    ensures r == TrainerEmbedOf(card)
  {
    if card.text.None? {
      return Failure(TypeError);
    }
    var paragraphs := card.text.value;
    var embed := Embed(card.name, None, card.subtype, [], None, None);
    for i := 0 to |paragraphs|
      invariant embed == Embed(card.name, None, card.subtype, RuleFields(paragraphs[..i]), None, None)
    {
      assert RuleFields(paragraphs[..i + 1]) == RuleFields(paragraphs[..i]) + [Field(Blank, paragraphs[i], true)];
      embed := AddField(embed, Field(Blank, paragraphs[i], true));
    }
    assert paragraphs[..|paragraphs|] == paragraphs;
    return Success(embed);
  }

  /* ---- text ---- */

  /** The opening lines of a Pokémon's text: name and types, HP, subtype and evolution. */
  function PokemonHeadOf(card: Card): string
  {
    card.name + " - " + Join("/", card.types)
      + (if card.hp.Some? then " - HP" + card.hp.value + "\n" else "\n")
      + card.subtype + " Pokemon" + EvolvesFromOf(card.evolvesFrom)
      + "\n\n"
  }

  function AbilityTextOrEmpty(ability: Option<Ability>): string
  {
    if ability.Some? then AbilityTextOf(ability.value).value else ""
  }

  function RetreatTextOf(retreat: Option<seq<string>>): string
  {
    if retreat.Some? then "Retreat: " + NatToString(|retreat.value|) else ""
  }

  /** The Pokémon part of `text`. Only an attack cost without shorthand can raise. */
  function PokemonTextOf(card: Card): Result<string>
  {
    var attacks :- FlatMap(AttackTextOf, OrEmpty(card.attacks));
    var weak :- FlatMap(WeaknessLineOf, OrEmpty(card.weaknesses));
    var res :- FlatMap(ResistanceLineOf, OrEmpty(card.resistances));
    Success(PokemonHeadOf(card) + AbilityTextOrEmpty(card.ability) + attacks + weak + res
      + RetreatTextOf(card.retreatCost))
  }

  method PokemonText(card: Card) returns (r: Result<string>)
    ensures r == PokemonTextOf(card)
  {
    var out := PokemonHeadOf(card);
    out := out + AbilityTextOrEmpty(card.ability);

    var attacks := OrEmpty(card.attacks);
    var attackText := "";
    for i := 0 to |attacks|
      invariant FlatMap(AttackTextOf, attacks[..i]) == Success(attackText)
    {
      assert attacks[..i + 1][..i] == attacks[..i];
      var t := AttackText(attacks[i]);
      if t.Failure? {
        FlatMapFailureSticks(AttackTextOf, attacks, i + 1);
        return Failure(t.fault);
      }
      attackText := attackText + t.value;
    }
    assert attacks[..|attacks|] == attacks;
    out := out + attackText;

    FlatMapSucceeds(WeaknessLineOf, OrEmpty(card.weaknesses));
    var weak := RenderEach(WeaknessLineOf, OrEmpty(card.weaknesses));
    out := out + weak.value;
    FlatMapSucceeds(ResistanceLineOf, OrEmpty(card.resistances));
    var res := RenderEach(ResistanceLineOf, OrEmpty(card.resistances));
    out := out + res.value;
    out := out + RetreatTextOf(card.retreatCost);
    return Success(out);
  }

  /** The Trainer and Energy part of `text`: name, subtype and the text paragraphs
      separated by blank lines. A card whose text is None cannot be joined. */
  function TrainerTextOf(card: Card): Result<string>
  {
    if card.text.None? then Failure(TypeError)
    else Success(card.name + "\n" + card.subtype + "\n\n" + Join("\n\n", card.text.value) + "\n")
  }

  function CardBodyOf(card: Card): Result<string>
  {
    if card.supertype == "Pokémon" then PokemonTextOf(card)
    else if card.supertype == "Trainer" || card.supertype == "Energy" then TrainerTextOf(card)
    else Success("")
  }

  /** The closing line of `text`: set name, number out of the set's total, legality. */
  function SetLineOf(card: Card, cardSet: CardSet): string
  {
    "\n\n" + cardSet.name + " - " + card.number + "/" + NatToString(cardSet.totalCards) + LegalitySuffix(cardSet)
  }

  /** `text` as written: it reads the card's set code from whatever `parse_card` returned,
      so a refusal message raises AttributeError instead of being shown. */
  function TextOf(api: Api, name: string, setText: string): Result<string>
  {
    match ParseCard(api, name, setText)
    case Refused(_) => Failure(AttributeError)
    case Found(card) =>
      var cardSet := api.findSet(card.setCode);
      var body :- CardBodyOf(card);
      Success("```\n" + body + SetLineOf(card, cardSet) + "```\n")
  }

  method Text(api: Api, name: string, setText: string) returns (r: Result<string>)
    ensures r == TextOf(api, name, setText)
  {
    var lookup := ParseCard(api, name, setText);
    if lookup.Refused? {
      return Failure(AttributeError);
    }
    var card := lookup.card;
    var cardSet := api.findSet(card.setCode);
    var body := CardBody(card);
    if body.Failure? {
      return Failure(body.fault);
    }
    var out := "```\n";
    out := out + body.value;
    out := out + SetLineOf(card, cardSet);
    out := out + "```\n";
    return Success(out);
  }

  /** The part of `text` that depends on the supertype; other supertypes add nothing. */
  method CardBody(card: Card) returns (r: Result<string>)
    ensures r == CardBodyOf(card)
  {
    if card.supertype == "Pokémon" {
      r := PokemonText(card);
    } else if card.supertype == "Trainer" || card.supertype == "Energy" {
      if card.text.None? {
        return Failure(TypeError);
      }
      var out := card.name + "\n";
      out := out + (card.subtype + "\n\n");
      out := out + (Join("\n\n", card.text.value) + "\n");
      assert out == card.name + "\n" + card.subtype + "\n\n" + Join("\n\n", card.text.value) + "\n";
      r := Success(out);
    } else {
      r := Success("");
    }
  }

  /** The card text is fenced, and its last line names exactly one legality. */
  lemma TextFenced(api: Api, name: string, setText: string)
    requires TextOf(api, name, setText).Success?
    ensures var t := TextOf(api, name, setText).value;
      var suffix := LegalitySuffix(api.findSet(ParseCard(api, name, setText).card.setCode));
      && |t| >= 8
      && t[..4] == "```\n"
      && t[|t| - 4..] == "```\n"
      && EndsWith(t[..|t| - 4], suffix)
  {
    var card := ParseCard(api, name, setText).card;
    var cardSet := api.findSet(card.setCode);
    var body := CardBodyOf(card).value;
    var line := SetLineOf(card, cardSet);
    var t := "```\n" + body + line + "```\n";
    assert TextOf(api, name, setText).value == t;
    assert t[..4] == "```\n";
    assert t[|t| - 4..] == "```\n";
    assert t[..|t| - 4] == "```\n" + body + line;
    var suffix := LegalitySuffix(cardSet);
    assert line == "\n\n" + cardSet.name + " - " + card.number + "/" + NatToString(cardSet.totalCards) + suffix;
    assert EndsWith(line, suffix);
  }

  /** The intended `text`: a refusal from `parse_card` is sent back as it is. */
  function TextReplyOf(api: Api, name: string, setText: string): (r: Result<string>)
    ensures ParseCard(api, name, setText).Refused? ==> r == Success(ParseCard(api, name, setText).message)
    ensures r.Failure? ==> ParseCard(api, name, setText).Found?
  {
    match ParseCard(api, name, setText)
    case Refused(message) => Success(message)
    case Found(_) => TextOf(api, name, setText)
  }

  /** `text` as written raises on every refusal, where the intended version answers with
      the refusal message, as `show` does; on a card that was found the two agree. */
  lemma TextRefusalRaises(api: Api, name: string, setText: string)
    ensures ParseCard(api, name, setText).Refused? ==>
      && TextOf(api, name, setText) == Failure(AttributeError)
      && TextReplyOf(api, name, setText) == Success(ParseCard(api, name, setText).message)
      && ShowOf(api, name, setText) == Success(Plain(ParseCard(api, name, setText).message))
    ensures ParseCard(api, name, setText).Found? ==>
      TextReplyOf(api, name, setText) == TextOf(api, name, setText)
  {
  }

  /* ---- the card command ---- */

  /** The `card` command as written: it unpacks `search`'s answer as a pair. A bare string
      unpacks only if it has exactly two characters (and then comparing a character with
      MaxLines raises TypeError); any other bare string raises ValueError. */
  function CardCommandAsWritten(api: Api, name: string): (r: Result<Delivery>)
    ensures SearchAsWrittenOf(api, name).Failure? ==> r == Failure(SearchAsWrittenOf(api, name).fault)
    ensures SearchAsWrittenOf(api, name).Success? && SearchAsWrittenOf(api, name).value.Bare? ==>
      r.Failure? && r.fault in {TypeError, ValueError}
    ensures r.Success? ==>
      && SearchAsWrittenOf(api, name).Success? && SearchAsWrittenOf(api, name).value.Pair?
      && r.value.message == SearchAsWrittenOf(api, name).value.reply.message
      && (r.value.destination == Author <==> SearchAsWrittenOf(api, name).value.reply.count > MaxLines)
  {
    var outcome :- SearchAsWrittenOf(api, name);
    match outcome
    case Bare(text) => Failure(if |text| == 2 then TypeError else ValueError)
    case Pair(reply) => Success(Deliver(reply.message, reply.count))
  }

  /** The `card` command over the intended `search`. */
  function CardCommandOf(api: Api, name: string): (r: Result<Delivery>)
    ensures r.Success? <==> SearchOf(api, name).Success?
    ensures r.Success? ==>
      && r.value.message == SearchOf(api, name).value.message
      && (r.value.destination == Author <==> SearchOf(api, name).value.count > MaxLines)
  {
    var reply :- SearchOf(api, name);
    Success(Deliver(reply.message, reply.count))
  }

  /** Away from the one-letter names and the " delta" names, the command as written and
      the intended one do the same thing. */
  lemma AsWrittenAgrees(api: Api, name: string)
    requires |name| != 1 && SearchPlanAsWritten(name).Success?
    ensures SearchAsWrittenOf(api, name).Success? <==> SearchOf(api, name).Success?
    ensures SearchAsWrittenOf(api, name).Success? ==>
      SearchAsWrittenOf(api, name).value == Pair(SearchOf(api, name).value)
    ensures CardCommandAsWritten(api, name) == CardCommandOf(api, name)
  {
    SearchPlansAgree(name);
  }

  /* ---- properties ---- */

  /** The empty name is answered with an empty reply and no query. */
  lemma EmptyNameNoQuery(api: Api)
    ensures SearchPlanAsWritten("") == Success(Immediate("", 0))
    ensures SearchAsWrittenOf(api, "") == Success(Pair(Reply(Plain(""), 0)))
  {
  }

  /** A name ending in " ex" issues two queries, the lower-cased name and its dash form,
      whose results are concatenated in that order; otherwise " gx" issues one query with
      the dash form. */
  lemma SuffixQueries(api: Api, name: string)
    ensures EndsWith(Lower(name), " ex") ==>
      var low := Lower(name); var dashed := ReplaceAll(low, " ex", "-ex");
      && SearchPlanAsWritten(name) == Success(Issue([ByName(low), ByName(dashed)]))
      && EndsWith(dashed, "-ex")
      && Fetched(api.where, [ByName(low), ByName(dashed)]) == api.where(ByName(low)) + api.where(ByName(dashed))
    ensures !EndsWith(Lower(name), " ex") && EndsWith(Lower(name), " gx") ==>
      var q := ReplaceAll(Lower(name), " gx", "-gx");
      SearchPlanAsWritten(name) == Success(Issue([ByName(q)])) && EndsWith(q, "-gx")
  {
    var low := Lower(name);
    if EndsWith(low, " ex") {
      ReplaceAllKeepsSuffix(low, " ex", "-ex");
      FetchedPair(api.where, ByName(low), ByName(ReplaceAll(low, " ex", "-ex")));
    } else if EndsWith(low, " gx") {
      ReplaceAllKeepsSuffix(low, " gx", "-gx");
    }
  }

  /** As written, a name ending in " delta" (say "Flygon delta") raises TypeError before
      any query; the intended plan queries the name with " δ" in place of " delta". */
  lemma DeltaRaises(api: Api, name: string)
    requires !EndsWith(Lower(name), " ex") && !EndsWith(Lower(name), " gx")
    requires EndsWith(Lower(name), " delta")
    ensures SearchAsWrittenOf(api, name) == Failure(TypeError)
    ensures CardCommandAsWritten(api, name) == Failure(TypeError)
    ensures var q := ReplaceAll(Lower(name), " delta", " \U{03B4}");
      SearchPlan(name) == Issue([ByName(q)]) && EndsWith(q, " \U{03B4}")
  {
    ReplaceAllKeepsSuffix(Lower(name), " delta", " \U{03B4}");
  }

  /** As written, a one-letter name is answered, after its query, with a bare string: the
      fixed "N" listing for "N", the refusal for any other letter. The `card` command then
      fails to unpack it; the intended version delivers the same text. */
  lemma SingleLetterBare(api: Api, name: string)
    requires |name| == 1
    ensures var text := if name == "N" then NText else OneLetter;
      && SearchAsWrittenOf(api, name) == Success(Bare(text))
      && CardCommandAsWritten(api, name) == Failure(ValueError)
      && CardCommandOf(api, name) == Success(Deliver(Plain(text), GuardCount(name)))
      && CardCommandOf(api, name).value.destination == Channel
  {
    assert |Lower(name)| == 1;
    assert |NText| != 2 && |OneLetter| != 2;
  }

  /** With no card found the reply is "No matches" with count 0; with one card it is
      `show`'s reply for that card's name and set code, with count 1. */
  lemma FewResults(api: Api, name: string)
    requires SearchPlanAsWritten(name).Success? && SearchPlanAsWritten(name).value.Issue?
    requires |name| != 1
    ensures var cards := Fetched(api.where, SearchPlanAsWritten(name).value.queries);
      && (|cards| == 0 ==> SearchAsWrittenOf(api, name) == Success(Pair(Reply(Plain(NoMatches(name)), 0))))
      && (|cards| == 1 ==>
            SearchAsWrittenOf(api, name)
            == (var m :- ShowOf(api, cards[0].name, cards[0].setCode); Success(Pair(Reply(m, 1)))))
  {
  }

  /** With two or more cards the answer is the listing of the dated, sorted entries, and
      it raises exactly when dating some card's set does. */
  lemma AnswerListing(api: Api, name: string, cards: seq<Card>)
    requires |cards| >= 2
    ensures AnswerOf(api, name, cards).Success? <==> MapAll(EntryFor(api), cards).Success?
    ensures MapAll(EntryFor(api), cards).Success? ==>
      var sorted := SortBy(ReleaseKey, MapAll(EntryFor(api), cards).value);
      AnswerOf(api, name, cards) == Success(Reply(Plain(ListingOf(name, ListingLineOf, sorted)), |sorted|))
  {
  }

  /** The entries the listing shows (see `AnswerListing`) are the cards in query order,
      each with its dated set; the listing orders them by the rewritten release date,
      entries from sets with the same date keep their query order, and none is lost or
      repeated, so the count is the number of cards. */
  lemma ListingByRelease(api: Api, cards: seq<Card>)
    requires MapAll(EntryFor(api), cards).Success?
    ensures var entries := MapAll(EntryFor(api), cards).value;
      var sorted := SortBy(ReleaseKey, entries);
      && SortedBy(ReleaseKey, sorted)
      && (forall date :: WithKey(ReleaseKey, sorted, date) == WithKey(ReleaseKey, entries, date))
      && multiset(sorted) == multiset(entries)
      && |sorted| == |entries| == |cards|
      && forall i :: 0 <= i < |cards| ==> entries[i].card == cards[i]
  {
    var entries := MapAll(EntryFor(api), cards).value;
    MapAllPointwise(EntryFor(api), cards);
    forall i | 0 <= i < |cards| ensures entries[i].card == cards[i] {
      EntryKeepsNames(api, cards[i]);
    }
    SortBySorted(ReleaseKey, entries);
    SortByPermutation(ReleaseKey, entries);
    forall date ensures WithKey(ReleaseKey, SortBy(ReleaseKey, entries), date) == WithKey(ReleaseKey, entries, date) {
      SortByStable(ReleaseKey, entries, date);
    }
    assert |multiset(SortBy(ReleaseKey, entries))| == |multiset(entries)|;
  }

  /** An entry whose listed parts have no line break in them. */
  predicate Listable(e: Entry)
  {
    SingleLine(e.card.name) && SingleLine(e.card.number) && SingleLine(e.cardSet.name) && SingleLine(e.cardSet.code)
  }

  lemma ListableLine(e: Entry)
    requires Listable(e)
    ensures SingleLine(ListingLineOf(e))
  {
    NatToStringSingleLine(e.cardSet.totalCards);
  }

  /** Rewriting the date keeps the card and the set's name and code. */
  lemma EntryKeepsNames(api: Api, card: Card)
    requires EntryOf(api, card).Success?
    ensures EntryOf(api, card).value.card == card
    ensures EntryOf(api, card).value.cardSet.name == api.findSet(card.setCode).name
    ensures EntryOf(api, card).value.cardSet.code == api.findSet(card.setCode).code
  {
  }

  /** Every entry of the sorted listing of single-line cards and sets is listable. */
  lemma SortedListable(api: Api, cards: seq<Card>)
    requires MapAll(EntryFor(api), cards).Success?
    requires forall c :: c in cards ==>
      && SingleLine(c.name) && SingleLine(c.number)
      && SingleLine(api.findSet(c.setCode).name) && SingleLine(api.findSet(c.setCode).code)
    ensures forall i :: 0 <= i < |SortBy(ReleaseKey, MapAll(EntryFor(api), cards).value)| ==>
      Listable(SortBy(ReleaseKey, MapAll(EntryFor(api), cards).value)[i])
  {
    var entries := MapAll(EntryFor(api), cards).value;
    MapAllPointwise(EntryFor(api), cards);
    forall j | 0 <= j < |entries| ensures Listable(entries[j]) {
      assert cards[j] in cards;
      assert EntryOf(api, cards[j]) == Success(entries[j]);
      EntryKeepsNames(api, cards[j]);
    }
    var sorted := SortBy(ReleaseKey, entries);
    SortByPermutation(ReleaseKey, entries);
    forall i | 0 <= i < |sorted| ensures Listable(sorted[i]) {
      assert sorted[i] in multiset(sorted);
      assert sorted[i] in entries;
    }
  }

  /** A listing of listable entries splits into its header and one line per entry. */
  lemma ListableListingSplits(name: string, entries: seq<Entry>)
    requires SingleLine(name)
    requires forall i :: 0 <= i < |entries| ==> Listable(entries[i])
    ensures Split(ListingOf(name, ListingLineOf, entries), '\n') == [HeaderLine(name)] + LinesOf(ListingLineOf, entries) + [""]
  {
    forall i | 0 <= i < |entries| ensures SingleLine(ListingLineOf(entries[i])) {
      ListableLine(entries[i]);
    }
    ListingSplits(name, ListingLineOf, entries);
  }

  /** The listing `AnswerListing` sends is the header line and then exactly one line per
      card, in release order. */
  lemma ListingOneLinePerCard(api: Api, name: string, cards: seq<Card>)
    requires MapAll(EntryFor(api), cards).Success?
    requires SingleLine(name)
    requires forall c :: c in cards ==>
      && SingleLine(c.name) && SingleLine(c.number)
      && SingleLine(api.findSet(c.setCode).name) && SingleLine(api.findSet(c.setCode).code)
    ensures var sorted := SortBy(ReleaseKey, MapAll(EntryFor(api), cards).value);
      Split(ListingOf(name, ListingLineOf, sorted), '\n') == [HeaderLine(name)] + LinesOf(ListingLineOf, sorted) + [""]
  {
    var sorted := SortBy(ReleaseKey, MapAll(EntryFor(api), cards).value);
    SortedListable(api, cards);
    ListableListingSplits(name, sorted);
  }

  /** Each listed set's date is the ISO form of the date `Set.find` gave. */
  lemma ListedDatesAreIso(api: Api, cards: seq<Card>, i: nat, month: string, day: string, year: string)
    requires MapAll(EntryFor(api), cards).Success? && i < |cards|
    requires api.findSet(cards[i].setCode).releaseDate == month + "/" + day + "/" + year
    requires '/' !in month && '/' !in day && '/' !in year
    ensures |MapAll(EntryFor(api), cards).value| == |cards|
      && MapAll(EntryFor(api), cards).value[i].cardSet
      == api.findSet(cards[i].setCode).(releaseDate := year + "-" + month + "-" + day)
  {
    MapAllPointwise(EntryFor(api), cards);
    IsoDateRewrite(month, day, year);
  }
}
