/** The `#[ram]` attribute of procmacros/src/lib.rs. Parsing the input with `syn` is not
    part of this model: the attribute receives the parse result, None when `syn::parse`
    fails. Token streams are sequences of token strings. */
module RamAttribute {
  import opened Bits

  /** The kinds of `syn::Item` the attribute tells apart; every other kind is `Other`. */
  datatype ItemKind = Static | Const | Fn | Other

  /** A parsed item: its kind and its tokens as they were written. */
  datatype Item = Item(kind: ItemKind, tokens: seq<string>)

  /** What the macro returns: the output tokens and the diagnostics it emitted. */
  datatype Expansion = Expansion(output: seq<string>, errors: seq<string>)

  const WRONG_ITEM: string := "#[ram] attribute can only be applied to functions, statics and consts"

  /** The link section for an item kind: `.data` for statics and consts, `.rwtext` for
      functions, none for anything else. */
  function Section(kind: ItemKind): (r: Option<string>)
    ensures r.None? <==> kind == Other
  {
    match kind
    case Static => Some(".data")
    case Const => Some(".data")
    case Fn => Some(".rwtext")
    case Other => None
  }

  /** The tokens of `#[link_section="<section>"]`, or none. */
  function SectionTokens(section: Option<string>): (r: seq<string>)
    ensures section.None? <==> r == []
  {
    match section
    case None => []
    case Some(s) => ["#", "[", "link_section", "=", "\"" + s + "\"", "]"]
  }

  /** `ram(_args, input)`: the section attribute followed by the item unchanged, and the
      error for an item of any other kind. A failed parse panics, which is None here. */
  function Ram(args: seq<string>, input: Option<Item>): (r: Option<Expansion>)
    ensures r.None? <==> input.None?
  {
    match input
    case None => None
    case Some(item) =>
      Some(Expansion(SectionTokens(Section(item.kind)) + item.tokens,
                     if item.kind == Other then [WRONG_ITEM] else []))
  }

  /** The expansion: the item's tokens come out unchanged after the attribute; statics
      and consts go to `.data`, functions to `.rwtext`; any other item keeps no section
      and is reported as an error, and nothing else is reported. */
  lemma RamExpansion(args: seq<string>, item: Item)
    ensures var e := Ram(args, Some(item)).value;
      && e.output[|SectionTokens(Section(item.kind))|..] == item.tokens
      && (item.kind == Static || item.kind == Const ==> e.output[..6] == ["#", "[", "link_section", "=", "\".data\"", "]"])
      && (item.kind == Fn ==> e.output[..6] == ["#", "[", "link_section", "=", "\".rwtext\"", "]"])
      && (item.kind == Other <==> e.output == item.tokens && e.errors == [WRONG_ITEM])
      && (e.errors != [] <==> item.kind == Other)
  {
    var e := Ram(args, Some(item)).value;
    var prefix := SectionTokens(Section(item.kind));
    assert e.output == prefix + item.tokens;
    assert e.output[|prefix|..] == item.tokens;
    if item.kind != Other {
      assert |prefix| == 6;
      assert e.output[..6] == prefix;
      assert "\"" + ".data" + "\"" == "\".data\"";
      assert "\"" + ".rwtext" + "\"" == "\".rwtext\"";
    } else {
      assert prefix == [];
      assert e.output == item.tokens;
    }
  }

  /** The arguments are ignored: the expansion depends on the item alone. */
  lemma ArgumentsIgnored(a: seq<string>, b: seq<string>, input: Option<Item>)
    ensures Ram(a, input) == Ram(b, input)
  {
  }

  /** Items of the same kind get the same attribute, whatever their tokens. */
  lemma SectionByKind(args: seq<string>, x: Item, y: Item)
    requires x.kind == y.kind
    ensures Ram(args, Some(x)).value.output[..|SectionTokens(Section(x.kind))|] ==
            Ram(args, Some(y)).value.output[..|SectionTokens(Section(y.kind))|]
  {
    var p := SectionTokens(Section(x.kind));
    assert (p + x.tokens)[..|p|] == p;
    assert (p + y.tokens)[..|p|] == p;
  }
}
