/** The fixed lookup tables and limits both card cogs share (each file has its own
    identical copy). Python's `table[key]` raises KeyError for a key the table lacks;
    the lookups here return that as a Failure. */
module Tables {
  import opened Outcomes

  /** Type name to custom emoji. */
  const Emoji: map<string, string> := map[
    "Colorless" := "<:ecolorless:543156672219054100>",
    "Darkness"  := "<:edarkness:543156641772732438>",
    "Dragon"    := "<:edragon:543156672059670541>",
    "Fairy"     := "<:efairy:543156671824789504>",
    "Fighting"  := "<:efighting:543156617579986995>",
    "Fire"      := "<:efire:543156506485587968>",
    "Free"      := "<:efree:618879505007902750>",
    "Grass"     := "<:egrass:543154867540066307>",
    "Lightning" := "<:elightning:543156557072957441>",
    "Psychic"   := "<:epsychic:543156587100110851>",
    "Metal"     := "<:emetal:543156671648628768>",
    "Water"     := "<:ewater:543156529956651008>"
  ]

  /** Type name to embed colour. */
  const Colour: map<string, nat> := map[
    "Colorless" := 0xF5F5DA,
    "Darkness"  := 0x027798,
    "Dragon"    := 0xD1A300,
    "Fairy"     := 0xDD4787,
    "Fighting"  := 0xC24635,
    "Fire"      := 0xD7080C,
    "Grass"     := 0x427B18,
    "Lightning" := 0xF9D029,
    "Psychic"   := 0xB139B6,
    "Metal"     := 0xAFAFAF,
    "Water"     := 0x02B2E6
  ]

  /** Type name to the bracketed shorthand used in plain-text card listings. */
  const ShortEnergy: map<string, string> := map[
    "Colorless" := "[C]",
    "Darkness"  := "[D]",
    "Fairy"     := "[Y]",
    "Fighting"  := "[F]",
    "Fire"      := "[R]",
    "Free"      := "[ ]",
    "Grass"     := "[G]",
    "Lightning" := "[L]",
    "Psychic"   := "[P]",
    "Metal"     := "[M]",
    "Water"     := "[W]"
  ]

  /** Search results beyond this many lines go to the requester instead of the channel. */
  const MaxLines: int := 15

  /** U+200B, the placeholder the cogs put where an embed value would be empty. */
  const Blank: string := "\U{200B}"

  function EmojiOf(kind: string): (r: Result<string>)
    ensures r.Success? <==> kind in Emoji
    ensures r.Failure? ==> r.fault == KeyError(kind)
  {
    if kind in Emoji then Success(Emoji[kind]) else Failure(KeyError(kind))
  }

  function ShortEnergyOf(kind: string): (r: Result<string>)
    ensures r.Success? <==> kind in ShortEnergy
    ensures r.Failure? ==> r.fault == KeyError(kind)
  {
    if kind in ShortEnergy then Success(ShortEnergy[kind]) else Failure(KeyError(kind))
  }

  function ColourOf(kind: string): (r: Result<nat>)
    ensures r.Success? <==> kind in Colour
    ensures r.Failure? ==> r.fault == KeyError(kind)
  {
    if kind in Colour then Success(Colour[kind]) else Failure(KeyError(kind))
  }

  /** The colour table lacks "Free" and the shorthand table lacks "Dragon"; otherwise
      all three tables know the same type names. */
  lemma TableDomains()
    ensures Colour.Keys == Emoji.Keys - {"Free"}
    ensures ShortEnergy.Keys == Emoji.Keys - {"Dragon"}
    ensures "Dragon" !in ShortEnergy && "Free" !in Colour
  {
  }

  /** Every shorthand symbol is three characters wide. */
  lemma ShortEnergyWidth()
    ensures forall k :: k in ShortEnergy ==> |ShortEnergy[k]| == 3
  {
  }
}
