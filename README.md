# Pokémon TCG card lookup, modelled in Dafny

The project models a chat-bot cog that looks up Pokémon Trading Card Game cards. Two
near-identical copies of the cog exist, one for each card-database SDK schema:

- `pokemontcgv2/pokemontcgv2.py` uses the current schema. Cards have `subtypes`, `abilities`, `rules` and an `ancientTrait`. Sets have `printedTotal`, `series` and per-format `legalities`.
- `pokemontcg/pokemontcg.py` uses the older schema. Cards have one `subtype`, one `ability` and `text`. Sets have `total_cards`, `release_date` and two legality flags.

Each copy has the same pipeline:

- **search**: the text behind the `card` command. It normalises a name into SDK queries:
  - a name whose lower-cased form ends in " ex" is looked up lower-cased, both as is and with "-ex";
  - " gx" becomes "-gx"; " delta" becomes " δ" in the current schema, while the old schema's " delta" branch raises (see Findings);
  - "N" is special-cased.
- **answering**: the answer depends on how many cards come back:
  - none gives "No matches";
  - one gives the card's `show` output;
  - two or more give a listing with one line per card. The older schema first sorts that listing by each set's release date, rewritten to ISO form.
- **card command**: sends the reply to the channel. Above `MAX_LINES` (15) results it sends it to the requester instead, after a notice in the channel.
- **parse_card**: finds one card, either by id or by name within a set. Otherwise it returns a refusal message.
- **show**: turns the card into an embed with `embed_create`, which calls `pokemon_embed` or `trainer_embed`.
- **text**: renders the card as copy-and-paste text in a code block.

The emoji, colour and shorthand-energy tables come from `tables.dfy`.

Files:

- `outcomes.dfy`: `Option`, the Python exceptions as a `Fault` value, and `Result`. Module `Collect` holds the "walk a list, first raise wins" functions (`FlatMap`, `MapAll`) and a loop method proved equal to `FlatMap`.
- `strings.dfy`: the Python string operations the cog uses: `lower`, `endswith`, `replace`, `split`, `join`, `%s` of an int, and list `repr`. Their lemmas cover round trips and suffixes.
- `sorting.dfy`: a stable sort by a string key, proved sorted, stable and a permutation. It models `list.sort(key=...)`.
- `tables.dfy`: the three tables, `MAX_LINES` and the blank placeholder.
- `cards.dfy`: what both copies share: records, embed and text pieces, messages, listings and routing.
- `pokemontcgv2.dfy`: the current-schema cog.
- `pokemontcg.dfy`: the older-schema cog. It includes the as-written and corrected versions behind each finding.

Modelling conventions:

- **SDK calls.** The SDK's `Card.where`, `Card.find` and `Set.find` are network calls. They are the fields of an `Api` value, so every property holds for whatever the catalogue returns.
- **Exceptions.** A Python exception is a `Failure(fault)`, raised at the point where the source's evaluation order raises it.
- **Loops.** Each loop of the source is a `method` proved equal to a function, for example `Search` and `SearchOf`. Other code and the lemmas use the function.

Behaviour worth knowing:

- A one-letter name (old schema) is still looked up before it is refused. In the current schema only "n"/"N" is special, and other single letters are searched normally.
- A listing longer than `MAX_LINES` is sent in full to the requester, not truncated.
- The empty name gives an empty reply with count 0, without a query.
- Some inputs raise exceptions out of the command, as listed under Findings.

## Model

| member | source | states |
|---|---|---|
| Collect.Head | pokemontcgv2/pokemontcgv2.py:163-169 | `xs[0]` raises IndexError exactly on an empty list, otherwise gives the first element |
| Collect.OrEmpty | pokemontcgv2/pokemontcgv2.py:178-179 | a loop guarded by `is not None` walks the list when present and nothing when None |
| Collect.FlatMapFailureSticks | pokemontcgv2/pokemontcgv2.py:186-204 | once an element's piece raises, the whole accumulation raises that same exception |
| Collect.FlatMapAppend | pokemontcgv2/pokemontcgv2.py:186-204 | accumulating over `a + b` is accumulating over `a` then over `b`, pieces in list order |
| Collect.FlatMapSingle | pokemontcgv2/pokemontcgv2.py:190-191 | a one-element accumulation is that element's piece |
| Collect.FlatMapSucceeds | pokemontcgv2/pokemontcgv2.py:340-350 | an accumulation succeeds exactly when no element's piece raises |
| Collect.FlatMapIsFlatten | pokemontcgv2/pokemontcgv2.py:190-191 | the accumulation succeeds exactly when mapping does, and is then the mapped pieces concatenated in order |
| Collect.FlatMapFirstFailure | pokemontcgv2/pokemontcgv2.py:190-191 | an accumulation that raises raises the exception of its first failing element |
| Collect.MapAllFailureSticks | pokemontcgv2/pokemontcgv2.py:160 | once one element raises in `map`, the whole map raises that exception |
| Collect.MapAllPointwise | pokemontcgv2/pokemontcgv2.py:160 | a successful `map` keeps one image per element, in order |
| Collect.RenderEach | pokemontcgv2/pokemontcgv2.py:190-191 | the `for x in xs: s += f(x)` loop computes exactly the accumulation, raising at the first failing element |
| Strings.Lower | pokemontcgv2/pokemontcgv2.py:76 | `lower()` keeps the length and lower-cases each ASCII and Latin-1 capital |
| Strings.ReplaceAllWithoutMatch | pokemontcgv2/pokemontcgv2.py:78 | `replace` leaves a string without the pattern unchanged |
| Strings.ReplaceAllKeepsSuffix | pokemontcgv2/pokemontcgv2.py:76-85 | a name ending in " ex"/" gx"/" delta" ends in "-ex"/"-gx"/" δ" after `replace` |
| Strings.ReplaceAllAtFirst | pokemontcgv2/pokemontcgv2.py:76-85 | `replace` rewrites every occurrence: the first one, after pattern-free text, is rewritten and the scan continues over the rest |
| Strings.ReplaceAllLoneSuffix | pokemontcgv2/pokemontcgv2.py:78 | when the pattern occurs only at the end, exactly that occurrence is rewritten |
| Strings.Split | pokemontcg/pokemontcg.py:111 | `split` always yields at least one part |
| Strings.JoinSplit | pokemontcg/pokemontcg.py:111 | joining the parts of a `split` with the separator gives back the string |
| Strings.SplitJoin | pokemontcg/pokemontcg.py:119-124 | splitting a join of separator-free pieces gives back the pieces |
| Strings.SplitWithoutSeparator | pokemontcg/pokemontcg.py:111 | a string without the separator splits into itself alone |
| Strings.SplitAtFirst | pokemontcg/pokemontcg.py:111 | splitting at a first separator peels off the part before it |
| Strings.JoinConsFirst | pokemontcg/pokemontcg.py:111 | a character in front of the first part is in front of the join |
| Strings.TerminatedSnoc | pokemontcg/pokemontcg.py:121-124 | appending a line appends it and its newline |
| Strings.TerminatedCons | pokemontcg/pokemontcg.py:120 | a header line comes first, with its newline |
| Strings.TerminatedAppend | pokemontcg/pokemontcg.py:120-124 | newline-terminated blocks concatenate |
| Strings.TerminatedIsJoin | pokemontcg/pokemontcg.py:120-124 | newline-terminated lines are the lines joined by newline, plus a trailing one |
| Strings.JoinSnoc | pokemontcg/pokemontcg.py:120-124 | one more line before the trailing empty part adds the line and a separator |
| Strings.SplitTerminated | pokemontcg/pokemontcg.py:120-124 | splitting one-line-per-entry text on newline gives the lines back, then "" |
| Strings.NatToStringRoundTrip | pokemontcg/pokemontcg.py:121-123 | `%s` of a count is decimal digits without a leading zero that read back as the count |
| Strings.NatToStringSingleLine | pokemontcg/pokemontcg.py:121-123 | `%s` of a count has no newline |
| StableSort.LexLeReflexive | pokemontcg/pokemontcg.py:117 | string order is reflexive |
| StableSort.LexLeTotal | pokemontcg/pokemontcg.py:117 | string order is total |
| StableSort.LexLeTransitive | pokemontcg/pokemontcg.py:117 | string order is transitive |
| StableSort.LexLeAntisymmetric | pokemontcg/pokemontcg.py:117 | string order is antisymmetric |
| StableSort.InsertKeepsBound | pokemontcg/pokemontcg.py:117 | inserting a key no larger than a bound keeps all keys within the bound |
| StableSort.InsertSorted | pokemontcg/pokemontcg.py:117 | inserting into a sorted list keeps it sorted |
| StableSort.InsertWithKey | pokemontcg/pokemontcg.py:117 | insertion puts the element after every element with the same key |
| StableSort.InsertMultiset | pokemontcg/pokemontcg.py:117 | insertion adds exactly the element |
| StableSort.SortBySorted | pokemontcg/pokemontcg.py:117 | `sort(key=...)` orders by key |
| StableSort.SortByStable | pokemontcg/pokemontcg.py:117 | equal keys keep their original relative order |
| StableSort.SortByPermutation | pokemontcg/pokemontcg.py:117 | the sort neither loses nor repeats an element |
| StableSort.SortedStableIsUnique | pokemontcg/pokemontcg.py:117 | a sorted list with the same per-key order as the input is the sort's output |
| StableSort.SortedStableAgree | pokemontcg/pokemontcg.py:117 | two sorted lists with the same per-key order are equal |
| StableSort.EmptyIffNoKeys | pokemontcg/pokemontcg.py:117 | a list is empty exactly when no key selects anything from it |
| StableSort.WithKeyMember | pokemontcg/pokemontcg.py:117 | every element is selected by its own key |
| StableSort.LastKeysEqual | pokemontcg/pokemontcg.py:117 | sorted lists with the same per-key order end on the same key |
| StableSort.KeyFound | pokemontcg/pokemontcg.py:117 | a key that selects something is some element's key |
| Tables.EmojiOf | pokemontcgv2/pokemontcgv2.py:18-31 | `emoji[t]` succeeds exactly for a type in the table, else KeyError(t) |
| Tables.ShortEnergyOf | pokemontcgv2/pokemontcgv2.py:49-61 | `short_energy[t]` succeeds exactly for a type in the table, else KeyError(t) |
| Tables.ColourOf | pokemontcgv2/pokemontcgv2.py:34-46 | `colour[t]` succeeds exactly for a type in the table, else KeyError(t) |
| Tables.TableDomains | pokemontcgv2/pokemontcgv2.py:18-61 | colour lacks only "Free" and shorthand lacks only "Dragon" of the emoji table's types |
| Tables.ShortEnergyWidth | pokemontcg/pokemontcg.py:48-60 | every shorthand symbol is three characters |
| Cards.FetchedSingle | pokemontcgv2/pokemontcgv2.py:81-82 | one query's results are exactly that query's |
| Cards.FetchedPair | pokemontcgv2/pokemontcgv2.py:76-78 | the two " ex" queries' results are the first's followed by the second's |
| Cards.LinesOf | pokemontcgv2/pokemontcgv2.py:112-115 | one listing line per result, the i-th for the i-th result |
| Cards.Listing | pokemontcgv2/pokemontcgv2.py:111-115 | the listing loop builds the header line and then one terminated line per result |
| Cards.ListingSplits | pokemontcgv2/pokemontcgv2.py:111-115 | when the name and the lines are one-line, the listing splits back into the header and the lines |
| Cards.RuleFields | pokemontcgv2/pokemontcgv2.py:241-242 | one unnamed field per rule text, in order |
| Cards.WrrNameEmpty | pokemontcg/pokemontcg.py:199-217 | the weakness/resistance/retreat title is empty exactly when all three are None |
| Cards.AddField | pokemontcg/pokemontcg.py:175 | `add_field` appends the field and changes nothing else |
| Cards.Deliver | pokemontcgv2/pokemontcgv2.py:414-422 | more than MAX_LINES results go to the requester after the notice, otherwise to the channel |
| Cards.AddAbilityFields | pokemontcgv2/pokemontcgv2.py:177-182 | the ability loop adds one field per ability in order, and never raises |
| Cards.AddAttackFields | pokemontcgv2/pokemontcgv2.py:186-204 | the attack loop adds one field per attack in order, and raises at the first attack whose field raises |
| Cards.AttackField | pokemontcgv2/pokemontcgv2.py:186-204 | the attack loop builds the cost emoji, name, damage and text field, raising KeyError on a cost without emoji |
| Cards.AttackFieldLayout | pokemontcgv2/pokemontcgv2.py:186-204 | the field name is one emoji per cost entry in order, then the name, then " - " and the damage exactly when the damage is not empty; the value is the text or a blank; it raises exactly when a cost has no emoji, with the KeyError of the first such cost |
| Cards.WrrName | pokemontcgv2/pokemontcgv2.py:207-222 | the weakness/resistance/retreat loop builds exactly the specified title |
| Cards.AttackText | pokemontcgv2/pokemontcgv2.py:326-340 | the text attack loop builds shorthand cost, name, damage, text and blank line |
| Cards.ShortCostLayout | pokemontcgv2/pokemontcgv2.py:328-329 | a shorthand cost is one three-character symbol per entry in order, failing exactly on an entry without shorthand |
| Cards.TriplesSlices | pokemontcgv2/pokemontcgv2.py:328-329 | pieces three characters wide concatenate into one three-character slice per element, in order |
| Cards.RetreatIsColorlessCost | pokemontcgv2/pokemontcgv2.py:220-222 | the retreat part repeats the Colorless emoji once per retreat-cost entry |
| Cards.AttackDamageShown | pokemontcgv2/pokemontcgv2.py:331-336 | after cost and name an attack line shows ':' exactly when the damage is not empty |
| PokemonTcgV2.SearchPlan | pokemontcgv2/pokemontcgv2.py:67-99 | only the empty name and "n"/"N" are answered without a query; the empty name exactly with ("", 0) |
| PokemonTcgV2.Search | pokemontcgv2/pokemontcgv2.py:67-117 | the search loop computes exactly the specified reply and count |
| PokemonTcgV2.ParseCard | pokemontcgv2/pokemontcgv2.py:248-269 | with a dash: found iff `Card.find` finds it; else found iff exactly one match; each refusal's message |
| PokemonTcgV2.ShowOf | pokemontcgv2/pokemontcgv2.py:273-281 | a refusal is shown as its message; a found card as its embed with the set from `Set.find` |
| PokemonTcgV2.Mark | pokemontcgv2/pokemontcgv2.py:133-144 | a legality mark shows its standing in its first character and its format name |
| PokemonTcgV2.FooterLegalityReadsBack | pokemontcgv2/pokemontcgv2.py:130-146 | the embed footer's legality part determines each format's standing: it reads back to the set's legalities |
| PokemonTcgV2.FooterPartReads | pokemontcgv2/pokemontcgv2.py:133-141 | a listed Standard or Expanded footer mark reads back as its standing |
| PokemonTcgV2.FooterTailReads | pokemontcgv2/pokemontcgv2.py:133-146 | a footer without a Standard mark reads back its Expanded and Legacy standings |
| PokemonTcgV2.TextPartReads | pokemontcgv2/pokemontcgv2.py:368-381 | a listed Standard or Expanded mark in the text reads back as its standing |
| PokemonTcgV2.TextLegacyReads | pokemontcgv2/pokemontcgv2.py:376-379 | the text's Legacy mark alone is not read as a Standard or Expanded mark, and reads back as its standing |
| PokemonTcgV2.TextTailReads | pokemontcgv2/pokemontcgv2.py:368-381 | text without a Standard mark reads back its Expanded and Legacy standings |
| PokemonTcgV2.TextLegalityReadsBack | pokemontcgv2/pokemontcgv2.py:368-381 | the text's legality part reads back to the set's legalities |
| PokemonTcgV2.EmbedCreateOf | pokemontcgv2/pokemontcgv2.py:118-148 | an embed is made exactly for a Pokémon card whose Pokémon embed succeeds, or a Trainer/Energy card whose trainer embed succeeds; it is that embed with only the image and footer set |
| PokemonTcgV2.EmbedCreateShape | pokemontcgv2/pokemontcgv2.py:120-148 | embeds exist only for Pokémon, Trainer and Energy, with the card image and set footer; any other supertype raises AttributeError |
| PokemonTcgV2.PokemonEmbed | pokemontcgv2/pokemontcgv2.py:152-233 | the embed loops build title, colour, description and trait, ability, attack and weakness fields in order, raising where the source raises |
| PokemonTcgV2.RulesValue | pokemontcgv2/pokemontcgv2.py:225-229 | the rule-box loop gives one rule per line, or a blank without rules |
| PokemonTcgV2.TrainerEmbed | pokemontcgv2/pokemontcgv2.py:237-244 | the embed has one field per rule; rules None raises TypeError |
| PokemonTcgV2.PokemonText | pokemontcgv2/pokemontcgv2.py:291-360 | the text loops build exactly the specified Pokémon text |
| PokemonTcgV2.CardBody | pokemontcgv2/pokemontcgv2.py:293-365 | the body is the Pokémon text, or name, subtypes and rules for Trainer/Energy, else empty |
| PokemonTcgV2.Text | pokemontcgv2/pokemontcgv2.py:285-383 | `text` computes exactly the specified output, raising AttributeError on a refusal |
| PokemonTcgV2.TextFenced | pokemontcgv2/pokemontcgv2.py:290-383 | the text opens and closes with a code-block marker |
| PokemonTcgV2.TextReplyOf | pokemontcgv2/pokemontcgv2.py:274-281 | corrected `text`: a refusal is answered with its message, and only a found card can raise |
| PokemonTcgV2.TextRefusalRaises | pokemontcgv2/pokemontcgv2.py:285-287 | as written a refusal raises AttributeError; the corrected `text` answers the refusal message, as `show` does |
| PokemonTcgV2.EmptyNameNoQuery | pokemontcgv2/pokemontcgv2.py:68-69 | the empty name gives ("", 0) without a query |
| PokemonTcgV2.ExNameQueriesBoth | pokemontcgv2/pokemontcgv2.py:76-78 | " ex" names query the lower-cased name and the "-ex" form, results concatenated in that order |
| PokemonTcgV2.GxNameQueriesDashed | pokemontcgv2/pokemontcgv2.py:81-82 | " gx" names query one "-gx" name |
| PokemonTcgV2.DeltaNameQueriesSymbol | pokemontcgv2/pokemontcgv2.py:84-85 | " delta" names query one " δ" name |
| PokemonTcgV2.NNameFixedListing | pokemontcgv2/pokemontcgv2.py:87-96 | "n"/"N" gets the fixed listing with count 6 and no query |
| PokemonTcgV2.NListingLines | pokemontcgv2/pokemontcgv2.py:88-96 | the fixed listing is a header and six card lines, matching its count |
| PokemonTcgV2.PlainNameQuoted | pokemontcgv2/pokemontcgv2.py:98-99 | any other name is one quoted-name query ordered by release date |
| PokemonTcgV2.FewResults | pokemontcgv2/pokemontcgv2.py:102-108 | no result gives "No matches" with 0; one gives `show` of that card with 1 |
| PokemonTcgV2.ListingOneLinePerCard | pokemontcgv2/pokemontcgv2.py:111-117 | two or more results give the header and exactly one line per card in query order, with the card count |
| PokemonTcgV2.CardCommandOf | pokemontcgv2/pokemontcgv2.py:414-422 | the command succeeds exactly when search does, sends search's message, and adds the notice exactly when the count exceeds MAX_LINES |
| PokemonTcgV2.CardCommandRouting | pokemontcgv2/pokemontcgv2.py:414-422 | the reply goes to the requester, after the notice, exactly when the count exceeds MAX_LINES |
| PokemonTcg.SearchPlanAsWritten | pokemontcg/pokemontcg.py:66-86 | as written the only failure of the query step is TypeError |
| PokemonTcg.SearchPlan | pokemontcg/pokemontcg.py:66-86 | corrected: exactly the empty name is answered without a query, with ("", 0) |
| PokemonTcg.SearchPlansAgree | pokemontcg/pokemontcg.py:75-86 | the as-written and corrected queries agree, and the as-written step fails exactly for " delta" names |
| PokemonTcg.GuardOf | pokemontcg/pokemontcg.py:89-93 | the guard answers exactly the one-character names: the fixed listing for "N", the refusal otherwise |
| PokemonTcg.IsoDate | pokemontcg/pokemontcg.py:111-112 | the date rewrite succeeds exactly when the date splits into three or more parts, else IndexError |
| PokemonTcg.IsoDateRewrite | pokemontcg/pokemontcg.py:111-112 | "MM/DD/YYYY" becomes "YYYY-MM-DD" |
| PokemonTcg.SearchOf | pokemontcg/pokemontcg.py:66-126 | corrected `search`: the empty name gives ("", 0); a one-letter name gives the fixed text paired with its count; otherwise the count is the number of cards the queries found |
| PokemonTcg.AnswerOf | pokemontcg/pokemontcg.py:96-126 | the count is the number of cards found; with other than one card, the answer raises exactly when dating some card's set raises |
| PokemonTcg.Search | pokemontcg/pokemontcg.py:66-126 | the query, date-rewrite and sort steps compute exactly the as-written outcome |
| PokemonTcg.DatedEntries | pokemontcg/pokemontcg.py:106-114 | the set-fetch loop pairs each card with its set, date rewritten, in order, raising IndexError at the first malformed date |
| PokemonTcg.ParseCard | pokemontcg/pokemontcg.py:233-254 | with a dash: found iff `Card.find` finds it; else found iff exactly one match; each refusal's message |
| PokemonTcg.ShowOf | pokemontcg/pokemontcg.py:258-266 | a refusal is shown as its message; a found card as its embed with the set from `Set.find` |
| PokemonTcg.LegalitySuffix | pokemontcg/pokemontcg.py:142-147 | exactly one format: Standard iff standard-legal, Expanded iff only expanded-legal, else Legacy |
| PokemonTcg.EmbedCreateOf | pokemontcg/pokemontcg.py:129-151 | an embed is made exactly for a Pokémon card whose Pokémon embed succeeds, or a Trainer/Energy card whose trainer embed succeeds; it is that embed with only the image and footer set |
| PokemonTcg.EmbedCreateShape | pokemontcg/pokemontcg.py:129-151 | embeds exist only for Pokémon, Trainer and Energy, with the card image and a footer ending in the one legality; other supertypes raise AttributeError |
| PokemonTcg.PokemonEmbed | pokemontcg/pokemontcg.py:155-219 | the embed loops build title, colour, description, ability, attack and weakness fields in order, raising where the source raises |
| PokemonTcg.WrrFieldWhenListed | pokemontcg/pokemontcg.py:199-217 | the weakness/resistance/retreat field is present, and last, exactly when one of the three is listed |
| PokemonTcg.TrainerEmbed | pokemontcg/pokemontcg.py:223-229 | the embed has one field per text paragraph; text None raises TypeError |
| PokemonTcg.PokemonText | pokemontcg/pokemontcg.py:278-329 | the text loops build exactly the specified Pokémon text |
| PokemonTcg.CardBody | pokemontcg/pokemontcg.py:278-335 | the body is the Pokémon text, or name, subtype and paragraphs for Trainer/Energy, else empty |
| PokemonTcg.Text | pokemontcg/pokemontcg.py:270-347 | `text` computes exactly the specified output, raising AttributeError on a refusal |
| PokemonTcg.TextFenced | pokemontcg/pokemontcg.py:275-346 | the text is fenced and its last line ends in the set's one legality |
| PokemonTcg.TextReplyOf | pokemontcg/pokemontcg.py:259-263 | corrected `text`: a refusal is answered with its message, and only a found card can raise |
| PokemonTcg.TextRefusalRaises | pokemontcg/pokemontcg.py:270-272 | as written a refusal raises AttributeError; the corrected `text` answers the refusal message, as `show` does |
| PokemonTcg.EmptyNameNoQuery | pokemontcg/pokemontcg.py:67-68 | the empty name gives ("", 0) without a query |
| PokemonTcg.SuffixQueries | pokemontcg/pokemontcg.py:75-81 | " ex" names query both forms, concatenated; " gx" names one "-gx" name |
| PokemonTcg.DeltaRaises | pokemontcg/pokemontcg.py:83-84 | as written " delta" names raise TypeError in search and in the command; corrected they query one " δ" name |
| PokemonTcg.SingleLetterBare | pokemontcg/pokemontcg.py:89-93 | as written a one-letter name yields a bare string and the command's unpacking raises ValueError; corrected it is delivered to the channel |
| PokemonTcg.FewResults | pokemontcg/pokemontcg.py:96-102 | no result gives "No matches" with 0; one gives `show` of that card with 1 |
| PokemonTcg.AnswerListing | pokemontcg/pokemontcg.py:106-126 | with two or more cards the answer is the listing of the dated entries sorted by date, counted, and it raises exactly when dating a set raises |
| PokemonTcg.ListingByRelease | pokemontcg/pokemontcg.py:106-117 | the dated entries are the cards in query order; sorted, they are ordered by release date, stable among equal dates, a permutation, one per card |
| PokemonTcg.ListingOneLinePerCard | pokemontcg/pokemontcg.py:119-126 | the listing splits into the header and exactly one line per card, in release order |
| PokemonTcg.SortedListable | pokemontcg/pokemontcg.py:106-117 | after dating and sorting, every entry still has one-line names, numbers and codes when the cards and sets did |
| PokemonTcg.ListableListingSplits | pokemontcg/pokemontcg.py:119-124 | a listing of such entries splits into the header and one line per entry |
| PokemonTcg.ListableLine | pokemontcg/pokemontcg.py:121-123 | a listing line has no newline when its parts have none |
| PokemonTcg.EntryKeepsNames | pokemontcg/pokemontcg.py:108-114 | the date rewrite keeps the card and the set's name and code |
| PokemonTcg.ListedDatesAreIso | pokemontcg/pokemontcg.py:106-114 | each listed set carries the ISO form of its `Set.find` date and is otherwise unchanged |
| PokemonTcg.CardCommandAsWritten | pokemontcg/pokemontcg.py:380-388 | as written: search's exception propagates; a bare string raises TypeError or ValueError on unpacking; a pair is sent to the requester exactly when its count exceeds MAX_LINES |
| PokemonTcg.AsWrittenAgrees | pokemontcg/pokemontcg.py:380-388 | for every name that is not one letter and not a " delta" name, search and the command as written behave exactly as the corrected ones |
| PokemonTcg.CardCommandOf | pokemontcg/pokemontcg.py:380-388 | corrected command: succeeds exactly when search does, and sends the reply to the requester exactly when the count exceeds MAX_LINES |

## Left out

- Discord objects, message sending and `pagify`: an embed is a record and a message is plain text or an embed. `_smart_send` skipping an empty message is not modelled.
- The worker thread pool, `__unload` and the LRU cache on `show`: `show` is a pure function of the catalogue, so the cache cannot change its result.
- The network: `Card.where`, `Card.find` and `Set.find` are functions supplied by the caller. Their errors and timeouts are not modelled. `Card.find` reporting a missing card is modelled as None.
- Python `lower()` is modelled for ASCII and Latin-1 capitals only. List `repr` is modelled without escaping quotes inside elements.
- Every field not modelled as an `Option` is modelled as always present. This covers names, numbers, rarity, types and subtypes; ability text and ancient-trait text (pokemontcgv2/pokemontcgv2.py:174 and :315); attack cost, name and damage; weakness and resistance type and value; and the set's name, series, printed total and release date. So `"%s" % None` printing "None", and iterating a None cost, are not modelled.
- Old-schema attacks, weaknesses and resistances are dicts read by key (pokemontcg/pokemontcg.py:183-210). They are modelled as records, so a missing key raising KeyError is not modelled.
- The `show` and `text` commands default the card name to None (pokemontcgv2/pokemontcgv2.py:425 and :438; pokemontcg/pokemontcg.py:391 and :406). `ParseCard` takes a string name. So `!show xy11` without a name is not modelled: the source then queries `Card.where(name=None, ...)` and prints "None" in the refusals.
- The old schema's `release_date` is rewritten on a fresh value per card. Aliasing of one set object fetched twice is not modelled.
- `list.sort` in place is modelled as reassignment with a stable sort function.
- Exact emoji ids are copied as text, and nothing is proved about them.
- `compendium/compendium.py` is not part of this model.
- PokemonTcg.CardCommandOf: stated for the corrected command. As written the command raises before routing on the inputs listed under Findings; on every other name `PokemonTcg.AsWrittenAgrees` shows the two are the same.

## Findings

| source | as written | input that shows it | evidently intended | confidence | as-written member | corrected member |
|---|---|---|---|---|---|---|
| pokemontcg/pokemontcg.py:83-84 | `replace(" δ")` is called with one argument and raises TypeError | `!card Flygon delta` | replace " delta" by " δ" and query that name, as the current-schema copy does | not executed | PokemonTcg.DeltaRaises | PokemonTcg.SearchPlan |
| pokemontcg/pokemontcg.py:89-93 | a one-letter name returns a bare string, which the command unpacks as a (message, count) pair and raises ValueError | `!card N` or `!card a` | return the fixed listing or the refusal paired with a count | not executed | PokemonTcg.SingleLetterBare | PokemonTcg.CardCommandOf |
| pokemontcg/pokemontcg.py:270-272 | `text` reads `set_code` from whatever `parse_card` returned, so a refusal string raises AttributeError | `!text xy11 Nosuchname` | show the refusal message, as `show` does | not executed | PokemonTcg.TextRefusalRaises | PokemonTcg.TextReplyOf |
| pokemontcgv2/pokemontcgv2.py:285-287 | the same: a refusal string raises AttributeError on `card.set.id` | a set code with no card of that name | show the refusal message | not executed | PokemonTcgV2.TextRefusalRaises | PokemonTcgV2.TextReplyOf |
