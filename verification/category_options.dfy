/** The client's fixed category list and the badge colour assigned to each label
    (`CATEGORY_OPTIONS` and `getColorForCategory` in the client's helpers). */
module CategoryOptions {
  import opened JsonValues

  /** The catch-all label: the last option, the classifier's answer when nothing
      matches, and the category the server stores when none is given. */
  const Other := "Otros"

  /** The label the server reports for a failed scrape; the client does not offer it. */
  const NoCategory := "Sin Categoría"

  /** The labels offered by the category selector, in display order. */
  const Options: seq<string> := [
    "Programación",
    "Redes y Ciberseguridad",
    "Tecnología",
    "Finanzas",
    "Deportes",
    "Música",
    "Educación",
    Other
  ]

  /** The colour class listed for each entry of `Options`, position by position. */
  const OptionColors: seq<string> := [
    "bg-blue-600",
    "bg-green-600",
    "bg-yellow-600",
    "bg-indigo-600",
    "bg-red-600",
    "bg-pink-600",
    "bg-purple-600",
    "bg-gray-500"
  ]

  /** The class for a label outside the list. */
  const DefaultColor := "bg-gray-400"

  predicate IsOption(name: string) {
    name in Options
  }

  /** `getColorForCategory`: a strict-equality switch over the eight labels. */
  function ColorFor(category: Json): (color: string)
    ensures category.Str? && IsOption(category.s) ==> color != DefaultColor
    ensures !(category.Str? && IsOption(category.s)) ==> color == DefaultColor
  {
    match category
    case Str("Programación") => "bg-blue-600"
    case Str("Redes y Ciberseguridad") => "bg-green-600"
    case Str("Tecnología") => "bg-yellow-600"
    case Str("Finanzas") => "bg-indigo-600"
    case Str("Deportes") => "bg-red-600"
    case Str("Música") => "bg-pink-600"
    case Str("Educación") => "bg-purple-600"
    case Str("Otros") => "bg-gray-500"
    case _ => DefaultColor
  }

  /** Eight labels, pairwise distinct, the last one being "Otros". */
  lemma OptionsShape()
    ensures |Options| == 8
    ensures forall i, j :: 0 <= i < j < |Options| ==> Options[i] != Options[j]
    ensures Options[|Options| - 1] == "Otros"
  {
  }

  /** Each label maps to the class listed beside it. */
  lemma ColorOfEachOption(i: nat)
    requires i < |Options|
    ensures ColorFor(Str(Options[i])) == OptionColors[i]
  {
  }

  /** The eight colours are pairwise distinct, and none is the default. */
  lemma OptionColorsDistinct()
    ensures |OptionColors| == |Options|
    ensures forall i, j :: 0 <= i < j < |OptionColors| ==> OptionColors[i] != OptionColors[j]
    ensures forall i :: 0 <= i < |OptionColors| ==> OptionColors[i] != DefaultColor
  {
  }

  /** A label the list does not offer, such as the server's "Sin Categoría", is
      painted with the default colour, which no offered label shares. */
  lemma UnknownLabelColor(name: string)
    requires !IsOption(name)
    ensures ColorFor(Str(name)) == DefaultColor
    ensures forall i :: 0 <= i < |Options| ==> ColorFor(Str(Options[i])) != ColorFor(Str(name))
  {
    forall i | 0 <= i < |Options|
      ensures ColorFor(Str(Options[i])) != DefaultColor
    {
      ColorOfEachOption(i);
      OptionColorsDistinct();
    }
  }

  lemma NoCategoryIsNotAnOption()
    ensures !IsOption(NoCategory)
  {
  }
}
