/** The culture card: a fact sheet looked up by exact country name in a
    five-entry table, with one placeholder sheet for every other name. */
module Culture {

  /** One country's fact sheet; `colors` is the card's gradient classes. */
  datatype FactSheet = FactSheet(
    flag: string,
    greeting: string,
    language: string,
    foods: seq<string>,
    festivals: seq<string>,
    music: string,
    facts: seq<string>,
    colors: string)

  const CountryData: map<string, FactSheet> := map[
    "United States" := FactSheet(
      "🇺🇸", "Hello!", "English",
      ["Hamburgers", "Apple Pie", "BBQ"],
      ["Independence Day", "Thanksgiving"],
      "Jazz, Country, Hip-Hop",
      ["Home to Hollywood", "Has 50 states", "Invented the internet"],
      "from-red-400 to-blue-400"),
    "Japan" := FactSheet(
      "🇯🇵", "Konnichiwa! (こんにちは)", "Japanese",
      ["Sushi", "Ramen", "Tempura"],
      ["Cherry Blossom Festival", "Golden Week"],
      "Traditional Koto, J-Pop",
      ["Land of the Rising Sun", "Has bullet trains", "Invented karaoke"],
      "from-pink-400 to-red-400"),
    "Brazil" := FactSheet(
      "🇧🇷", "Olá!", "Portuguese",
      ["Feijoada", "Açaí", "Pão de Açúcar"],
      ["Carnival", "Festa Junina"],
      "Samba, Bossa Nova",
      ["Largest country in South America", "Amazon rainforest", "Football is life!"],
      "from-green-400 to-yellow-400"),
    "India" := FactSheet(
      "🇮🇳", "Namaste! (नमस्ते)", "Hindi, English + 20 others",
      ["Curry", "Biryani", "Naan"],
      ["Diwali", "Holi", "Eid"],
      "Classical Ragas, Bollywood",
      ["Birthplace of yoga", "Most diverse country", "Home to Taj Mahal"],
      "from-orange-400 to-green-400"),
    "China" := FactSheet(
      "🇨🇳", "Nǐ hǎo! (你好)", "Mandarin Chinese",
      ["Dumplings", "Peking Duck", "Hot Pot"],
      ["Chinese New Year", "Mid-Autumn Festival"],
      "Traditional Guzheng, Opera",
      ["Great Wall of China", "Invented paper", "Panda bears!"],
      "from-red-400 to-yellow-400")
  ]

  /** The placeholder shown for a name the table does not know. */
  const DefaultSheet: FactSheet := FactSheet(
    "🌍", "Hello!", "Local Language",
    ["Local cuisine"],
    ["Traditional celebrations"],
    "Traditional music",
    ["Rich cultural heritage"],
    "from-blue-400 to-purple-400")

  /** `countryData[country]`: the table entry, if the exact key is there. */
  datatype Entry = Missing | Found(sheet: FactSheet)

  function Get(country: string): Entry {
    if country in CountryData then Found(CountryData[country]) else Missing
  }

  /** `countryData[country] || default`. Every table entry is an object and
      so truthy in JavaScript; only a missing key falls through. The result
      is always some sheet: the table's own for a key, the default otherwise. */
  function Lookup(country: string): (r: FactSheet)
    ensures r == DefaultSheet || r in CountryData.Values
  {
    match Get(country)
    case Found(sheet) => sheet
    case Missing => DefaultSheet
  }

  /** The five keys of the table. */
  lemma TableKeys()
    ensures CountryData.Keys == {"United States", "Japan", "Brazil", "India", "China"}
  {
  }

  /** A key of the table gets exactly its own sheet. */
  lemma LookupKnown(country: string)
    requires country in CountryData
    ensures Lookup(country) == CountryData[country]
  {
  }

  /** The default sheet comes back exactly for the names the table lacks:
      no table entry equals the placeholder. */
  lemma LookupDefaultIff(country: string)
    ensures Lookup(country) == DefaultSheet <==> country !in CountryData
  {
    if country in CountryData {
      TableKeys();
      assert CountryData[country].flag != DefaultSheet.flag;
    }
  }

  /** The lookup is exact and case-sensitive: "japan" is not a key. */
  lemma LookupCaseSensitive()
    ensures Lookup("Japan") == CountryData["Japan"] != DefaultSheet
    ensures Lookup("japan") == DefaultSheet
  {
    TableKeys();
    assert CountryData["Japan"].flag != DefaultSheet.flag;
  }

  /** Every sheet the card can show has foods, festivals and facts to list. */
  predicate HasLists(sheet: FactSheet) {
    |sheet.foods| > 0 && |sheet.festivals| > 0 && |sheet.facts| > 0
  }

  lemma LookupHasLists(country: string)
    ensures HasLists(Lookup(country))
  {
    TableKeys();
  }

  /** A card button; `onClick` is the action the parent passed in. */
  datatype Button<A> = Button(caption: string, onClick: A)

  /** The card as rendered: the heading, the sheet whose fields fill the
      body, and its buttons (the corner cross and the bottom one). */
  datatype CardView<A> = CardView(heading: string, sheet: FactSheet, buttons: seq<Button<A>>)

  /** The card for `country` with the parent's close action `onClose`: the
      heading is the name as given, the body the looked-up sheet, and both
      buttons run `onClose`. */
  function Render<A>(country: string, onClose: A): (v: CardView<A>)
    ensures v.heading == country && v.sheet == Lookup(country)
    ensures |v.buttons| == 2 && forall b :: b in v.buttons ==> b.onClick == onClose
  {
    CardView(country, Lookup(country), [Button("×", onClose), Button("Explore More Countries 🌍", onClose)])
  }

  /** An unknown name is shown as given, above the placeholder facts. */
  lemma RenderUnknown<A>(country: string, onClose: A)
    requires country !in CountryData
    ensures Render(country, onClose).heading == country
    ensures Render(country, onClose).sheet == DefaultSheet
  {
  }
}
