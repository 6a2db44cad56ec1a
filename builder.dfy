/** Builder.java: the telescoping-constructor, JavaBean and fluent-builder ways of
    assembling a five-field drink record, the static inner builder of `Whiskey`, and
    the director that renders a `Wine` as plain text, JSON-like or XML-like text. */
module Builder {
  import opened JavaLang

  // ---------------------------------------------------------------------------
  // Telescoping constructors
  // ---------------------------------------------------------------------------

  /** `AlcoholicDrink`: soju and whiskey are the required fields, the rest optional.
      The datatype constructor is the five-argument Java constructor. */
  datatype AlcoholicDrink = AlcoholicDrink(soju: JString, whiskey: JString, beer: JString, wine: JString, sake: JString)

  /** The four-argument constructor: `sake` is never assigned, so it keeps Java's default, null. */
  function AlcoholicDrinkWithoutSake(soju: JString, whiskey: JString, beer: JString, wine: JString): (d: AlcoholicDrink)
    ensures d.soju == soju && d.whiskey == whiskey && d.beer == beer && d.wine == wine
    ensures d.sake == Null
  {
    AlcoholicDrink(soju, whiskey, beer, wine, Null)
  }

  /** The three-argument constructor: `wine` and `sake` stay null. */
  function AlcoholicDrinkWithBeer(soju: JString, whiskey: JString, beer: JString): (d: AlcoholicDrink)
    ensures d.soju == soju && d.whiskey == whiskey && d.beer == beer
    ensures d.wine == Null && d.sake == Null
  {
    AlcoholicDrink(soju, whiskey, beer, Null, Null)
  }

  /** Each shorter constructor is the next longer one with null for the argument it omits. */
  lemma TelescopingChain(soju: JString, whiskey: JString, beer: JString, wine: JString)
    ensures AlcoholicDrinkWithoutSake(soju, whiskey, beer, wine) == AlcoholicDrink(soju, whiskey, beer, wine, Null)
    ensures AlcoholicDrinkWithBeer(soju, whiskey, beer) == AlcoholicDrinkWithoutSake(soju, whiskey, beer, Null)
  {
  }

  // ---------------------------------------------------------------------------
  // JavaBean
  // ---------------------------------------------------------------------------

  /** `AlcoholicDrinkByJavaBean`: a no-argument constructor, then one setter per field. */
  class AlcoholicDrinkByJavaBean {
    var soju: JString
    var whiskey: JString
    var beer: JString
    var wine: JString
    var sake: JString

    constructor ()
      ensures soju == Null && whiskey == Null && beer == Null && wine == Null && sake == Null
    {
      soju, whiskey, beer, wine, sake := Null, Null, Null, Null, Null;
    }

    method SetSoju(soju: JString)
      modifies this`soju
      ensures this.soju == soju
    {
      this.soju := soju;
    }

    method SetWhiskey(whiskey: JString)
      modifies this`whiskey
      ensures this.whiskey == whiskey
    {
      this.whiskey := whiskey;
    }

    method SetBeer(beer: JString)
      modifies this`beer
      ensures this.beer == beer
    {
      this.beer := beer;
    }

    method SetWine(wine: JString)
      modifies this`wine
      ensures this.wine == wine
    {
      this.wine := wine;
    }

    method SetSake(sake: JString)
      modifies this`sake
      ensures this.sake == sake
    {
      this.sake := sake;
    }
  }

  // ---------------------------------------------------------------------------
  // Fluent builder and its product
  // ---------------------------------------------------------------------------

  /** `Drink`, the immutable product of `AlcoholicDrinkByBuilder`. */
  datatype Drink = Drink(soju: JString, whiskey: JString, beer: JString, wine: JString, sake: JString)
  {
    /** `Drink.toString`: every field in declaration order, each between single quotes. */
    function ToString(): string
    {
      "Drink{soju='" + Show(soju) +
      "', whiskey='" + Show(whiskey) +
      "', beer='" + Show(beer) +
      "', wine='" + Show(wine) +
      "', sake='" + Show(sake) + "'}"
    }
  }

  /** A field that follows a tag ending in a quote and contains no quote itself is
      the same in two equal texts of that shape, and so is everything before it. */
  lemma StripQuotedField(a1: string, f1: string, a2: string, f2: string, tag: string)
    requires a1 + tag + f1 == a2 + tag + f2
    requires |tag| > 0 && tag[|tag| - 1] == '\''
    requires '\'' !in f1 && '\'' !in f2
    ensures a1 == a2 && f1 == f2
  {
    SplitAfterLast(a1 + tag, f1, a2 + tag, f2, '\'');
    StripSuffix(a1, a2, tag);
  }

  /** Two drinks whose field texts contain no single quote print alike only if every
      field prints alike: `toString` keeps each field in its own place. A null field
      and the text "null" print the same, so the conclusion is about `Show`. */
  lemma ToStringDistinguishesFields(d1: Drink, d2: Drink)
    requires '\'' !in Show(d1.soju) && '\'' !in Show(d1.whiskey) && '\'' !in Show(d1.beer)
    requires '\'' !in Show(d1.wine) && '\'' !in Show(d1.sake)
    requires '\'' !in Show(d2.soju) && '\'' !in Show(d2.whiskey) && '\'' !in Show(d2.beer)
    requires '\'' !in Show(d2.wine) && '\'' !in Show(d2.sake)
    requires d1.ToString() == d2.ToString()
    ensures Show(d1.soju) == Show(d2.soju) && Show(d1.whiskey) == Show(d2.whiskey)
    ensures Show(d1.beer) == Show(d2.beer) && Show(d1.wine) == Show(d2.wine)
    ensures Show(d1.sake) == Show(d2.sake)
  {
    var s1 := "Drink{soju='" + Show(d1.soju);
    var s2 := "Drink{soju='" + Show(d2.soju);
    var w1 := s1 + "', whiskey='" + Show(d1.whiskey);
    var w2 := s2 + "', whiskey='" + Show(d2.whiskey);
    var b1 := w1 + "', beer='" + Show(d1.beer);
    var b2 := w2 + "', beer='" + Show(d2.beer);
    var n1 := b1 + "', wine='" + Show(d1.wine);
    var n2 := b2 + "', wine='" + Show(d2.wine);
    StripSuffix(n1 + "', sake='" + Show(d1.sake), n2 + "', sake='" + Show(d2.sake), "'}");
    StripQuotedField(n1, Show(d1.sake), n2, Show(d2.sake), "', sake='");
    StripQuotedField(b1, Show(d1.wine), b2, Show(d2.wine), "', wine='");
    StripQuotedField(w1, Show(d1.beer), w2, Show(d2.beer), "', beer='");
    StripQuotedField(s1, Show(d1.whiskey), s2, Show(d2.whiskey), "', whiskey='");
    StripPrefix("Drink{soju='", Show(d1.soju), Show(d2.soju));
  }

  /** `AlcoholicDrinkByBuilder`: each setter assigns its own field and returns the
      builder itself, so calls chain; `build` copies the five fields into a `Drink`. */
  class AlcoholicDrinkByBuilder {
    var soju: JString
    var whiskey: JString
    var beer: JString
    var wine: JString
    var sake: JString

    constructor ()
      ensures soju == Null && whiskey == Null && beer == Null && wine == Null && sake == Null
    {
      soju, whiskey, beer, wine, sake := Null, Null, Null, Null, Null;
    }

    method Soju(soju: JString) returns (self: AlcoholicDrinkByBuilder)
      modifies this`soju
      ensures this.soju == soju && self == this
    {
      this.soju := soju;
      self := this;
    }

    method Whiskey(whiskey: JString) returns (self: AlcoholicDrinkByBuilder)
      modifies this`whiskey
      ensures this.whiskey == whiskey && self == this
    {
      this.whiskey := whiskey;
      self := this;
    }

    method Beer(beer: JString) returns (self: AlcoholicDrinkByBuilder)
      modifies this`beer
      ensures this.beer == beer && self == this
    {
      this.beer := beer;
      self := this;
    }

    method Wine(wine: JString) returns (self: AlcoholicDrinkByBuilder)
      modifies this`wine
      ensures this.wine == wine && self == this
    {
      this.wine := wine;
      self := this;
    }

    method Sake(sake: JString) returns (self: AlcoholicDrinkByBuilder)
      modifies this`sake
      ensures this.sake == sake && self == this
    {
      this.sake := sake;
      self := this;
    }

    method Build() returns (d: Drink)
      ensures d.soju == soju && d.whiskey == whiskey && d.beer == beer
      ensures d.wine == wine && d.sake == sake
    {
      d := Drink(soju, whiskey, beer, wine, sake);
    }
  }

  /** A chain on a fresh builder that sets soju twice and whiskey once: the drink holds
      the last soju, the whiskey, and null for the three fields never set. */
  method ChainLastSetWins(first: JString, second: JString, whiskey: JString) returns (d: Drink)
    ensures d == Drink(second, whiskey, Null, Null, Null)
  {
    var b := new AlcoholicDrinkByBuilder();
    var b1 := b.Soju(first);
    var b2 := b1.Whiskey(whiskey);
    var b3 := b2.Soju(second);
    d := b3.Build();
  }

  // ---------------------------------------------------------------------------
  // Static inner builder of Whiskey
  // ---------------------------------------------------------------------------

  /** `Whiskey`, built only through its inner `Builder`. */
  datatype Whiskey = Whiskey(name: JString, year: int32)

  /** `Whiskey.Builder`: unset fields keep Java's defaults, null and 0. */
  class WhiskeyBuilder {
    var name: JString
    var year: int32

    constructor ()
      ensures name == Null && year == 0
    {
      name, year := Null, 0;
    }

    method Name(name: JString) returns (self: WhiskeyBuilder)
      modifies this`name
      ensures this.name == name && self == this
    {
      this.name := name;
      self := this;
    }

    method Year(year: int32) returns (self: WhiskeyBuilder)
      modifies this`year
      ensures this.year == year && self == this
    {
      this.year := year;
      self := this;
    }

    /** `build`, through the private `Whiskey(Builder)` constructor that copies both fields. */
    method Build() returns (w: Whiskey)
      ensures w.name == name && w.year == year
    {
      w := Whiskey(name, year);
    }
  }

  /** A builder whose year is never set builds a whiskey of year 0. */
  method WhiskeyYearDefaultsToZero(name: JString) returns (w: Whiskey)
    ensures w == Whiskey(name, 0)
  {
    var b := new WhiskeyBuilder();
    var b1 := b.Name(name);
    w := b1.Build();
  }

  // ---------------------------------------------------------------------------
  // Director and the three WineBuilder formats
  // ---------------------------------------------------------------------------

  datatype Wine = Wine(name: JString, year: int32)

  /** The three concrete subclasses of the abstract `WineBuilder`, each holding its wine. */
  datatype WineBuilder = PlainTextBuilder(wine: Wine) | JSONBuilder(wine: Wine) | XMLBuilder(wine: Wine)
  {
    function Head(): string
    {
      match this
      case PlainTextBuilder(_) => ""
      case JSONBuilder(_) => "{\n"
      case XMLBuilder(_) => "<?xml version=\"1.0\" encoding=\"UTF-8\" ?>\n" + "<WINE>\n"
    }

    function Body(): string
    {
      match this
      case PlainTextBuilder(w) =>
        "Name : " + Show(w.name) + "|| Year : " + IntToString(w.year)
      case JSONBuilder(w) =>
        "\t\"Name\" : " + ("\"" + Show(w.name) + "\",\n") + "\t\"Year\" : " + IntToString(w.year)
      case XMLBuilder(w) =>
        "\t<NAME>" + Show(w.name) + "<NAME>" + "\n\t<YEAR>" + IntToString(w.year) + "<YEAR>"
    }

    function Foot(): string
    {
      match this
      case PlainTextBuilder(_) => ""
      case JSONBuilder(_) => "\n}"
      case XMLBuilder(_) => "\n</WINE>"
    }
  }

  datatype Director = Director(wineBuilder: WineBuilder)
  {
    /** `Director.build`: the builder's head, then its body, then its foot. */
    function Build(): (r: string)
      ensures |r| == |wineBuilder.Head()| + |wineBuilder.Body()| + |wineBuilder.Foot()|
      ensures r[..|wineBuilder.Head()|] == wineBuilder.Head()
      ensures r[|wineBuilder.Head()|..|r| - |wineBuilder.Foot()|] == wineBuilder.Body()
      ensures r[|r| - |wineBuilder.Foot()|..] == wineBuilder.Foot()
    {
      wineBuilder.Head() + wineBuilder.Body() + wineBuilder.Foot()
    }
  }

  /** What the director produces for a wine in each format. */
  function Render(b: WineBuilder): string
  {
    Director(b).Build()
  }

  lemma PlainTextOutput(w: Wine)
    ensures PlainTextBuilder(w).Head() == "" && PlainTextBuilder(w).Foot() == ""
    ensures Render(PlainTextBuilder(w)) == "Name : " + Show(w.name) + "|| Year : " + IntToString(w.year)
  {
  }

  lemma JSONOutput(w: Wine)
    ensures var r := Render(JSONBuilder(w));
      && |r| >= 4 && r[..2] == "{\n" && r[|r| - 2..] == "\n}"
      && r[2..|r| - 2] == "\t\"Name\" : " + ("\"" + Show(w.name) + "\",\n") + "\t\"Year\" : " + IntToString(w.year)
  {
  }

  lemma XMLOutput(w: Wine)
    ensures var r := Render(XMLBuilder(w));
      var prolog := "<?xml version=\"1.0\" encoding=\"UTF-8\" ?>\n" + "<WINE>\n";
      && |r| >= |prolog| + 8 && r[..|prolog|] == prolog && r[|r| - 8..] == "\n</WINE>"
      && r[|prolog|..|r| - 8] ==
         "\t<NAME>" + Show(w.name) + "<NAME>" + "\n\t<YEAR>" + IntToString(w.year) + "<YEAR>"
  {
  }

  predicate SameFormat(b1: WineBuilder, b2: WineBuilder)
  {
    || (b1.PlainTextBuilder? && b2.PlainTextBuilder?)
    || (b1.JSONBuilder? && b2.JSONBuilder?)
    || (b1.XMLBuilder? && b2.XMLBuilder?)
  }

  /** Within one format, equal output means equal body: head and foot do not depend on the wine. */
  lemma SameOutputSameBody(b1: WineBuilder, b2: WineBuilder)
    requires SameFormat(b1, b2)
    requires Render(b1) == Render(b2)
    ensures b1.Body() == b2.Body()
  {
    assert b1.Head() == b2.Head() && b1.Foot() == b2.Foot();
    StripSuffix(b1.Head() + b1.Body(), b2.Head() + b2.Body(), b1.Foot());
    StripPrefix(b1.Head(), b1.Body(), b2.Body());
  }

  lemma PlainTextBodyDistinguishes(w1: Wine, w2: Wine)
    requires PlainTextBuilder(w1).Body() == PlainTextBuilder(w2).Body()
    ensures Show(w1.name) == Show(w2.name) && IntToString(w1.year) == IntToString(w2.year)
  {
    var n1, n2 := Show(w1.name), Show(w2.name);
    var a1, a2 := "Name : " + n1 + "|| Year : ", "Name : " + n2 + "|| Year : ";
    assert a1[|a1| - 1] == ' ' && a2[|a2| - 1] == ' ';
    SplitBeforeDecimal(a1, IntToString(w1.year), a2, IntToString(w2.year));
    StripSuffix("Name : " + n1, "Name : " + n2, "|| Year : ");
    StripPrefix("Name : ", n1, n2);
  }

  lemma JSONBodyDistinguishes(w1: Wine, w2: Wine)
    requires JSONBuilder(w1).Body() == JSONBuilder(w2).Body()
    ensures Show(w1.name) == Show(w2.name) && IntToString(w1.year) == IntToString(w2.year)
  {
    var n1, n2 := Show(w1.name), Show(w2.name);
    var q1, q2 := "\"" + n1 + "\",\n", "\"" + n2 + "\",\n";
    var a1, a2 := "\t\"Name\" : " + q1 + "\t\"Year\" : ", "\t\"Name\" : " + q2 + "\t\"Year\" : ";
    assert a1[|a1| - 1] == ' ' && a2[|a2| - 1] == ' ';
    SplitBeforeDecimal(a1, IntToString(w1.year), a2, IntToString(w2.year));
    StripSuffix("\t\"Name\" : " + q1, "\t\"Name\" : " + q2, "\t\"Year\" : ");
    StripPrefix("\t\"Name\" : ", q1, q2);
    StripSuffix("\"" + n1, "\"" + n2, "\",\n");
    StripPrefix("\"", n1, n2);
  }

  lemma XMLBodyDistinguishes(w1: Wine, w2: Wine)
    requires XMLBuilder(w1).Body() == XMLBuilder(w2).Body()
    ensures Show(w1.name) == Show(w2.name) && IntToString(w1.year) == IntToString(w2.year)
  {
    var n1, n2 := Show(w1.name), Show(w2.name);
    var a1, a2 := "\t<NAME>" + n1 + "<NAME>" + "\n\t<YEAR>", "\t<NAME>" + n2 + "<NAME>" + "\n\t<YEAR>";
    var d1, d2 := IntToString(w1.year), IntToString(w2.year);
    StripSuffix(a1 + d1, a2 + d2, "<YEAR>");
    assert a1[|a1| - 1] == '>' && a2[|a2| - 1] == '>';
    SplitBeforeDecimal(a1, d1, a2, d2);
    StripSuffix("\t<NAME>" + n1 + "<NAME>", "\t<NAME>" + n2 + "<NAME>", "\n\t<YEAR>");
    StripSuffix("\t<NAME>" + n1, "\t<NAME>" + n2, "<NAME>");
    StripPrefix("\t<NAME>", n1, n2);
  }

  /** Every format is lossless up to null: two wines render alike in one format only
      if their names print alike and their years are equal. */
  lemma RenderDistinguishesWines(b1: WineBuilder, b2: WineBuilder)
    requires SameFormat(b1, b2)
    requires Render(b1) == Render(b2)
    ensures Show(b1.wine.name) == Show(b2.wine.name) && b1.wine.year == b2.wine.year
  {
    SameOutputSameBody(b1, b2);
    IntToStringInjective(b1.wine.year, b2.wine.year);
    match b1
    case PlainTextBuilder(_) => PlainTextBodyDistinguishes(b1.wine, b2.wine);
    case JSONBuilder(_) => JSONBodyDistinguishes(b1.wine, b2.wine);
    case XMLBuilder(_) => XMLBodyDistinguishes(b1.wine, b2.wine);
  }

  /** The two wines that no format can tell apart: a null name and the name "null". */
  lemma NullNamePrintsAsText(y: int32)
    ensures Render(PlainTextBuilder(Wine(Null, y))) == Render(PlainTextBuilder(Wine(Str("null"), y)))
    ensures Render(JSONBuilder(Wine(Null, y))) == Render(JSONBuilder(Wine(Str("null"), y)))
    ensures Render(XMLBuilder(Wine(Null, y))) == Render(XMLBuilder(Wine(Str("null"), y)))
  {
  }
}
