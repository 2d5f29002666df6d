/** The inspirational quotes, `src/data/quotes.js`, and their rotation by index. */
module Quotes {
  import opened Js

  const InspirationalQuotes: seq<string> := [
    "Chaque petite \U{00E9}conomie vous rapproche de vos r\U{00EA}ves",
    "La discipline d'aujourd'hui est la libert\U{00E9} de demain",
    "Vos r\U{00EA}ves m\U{00E9}ritent votre engagement",
    "Un budget ma\U{00EE}tris\U{00E9} est un pas vers la libert\U{00E9} financi\U{00E8}re",
    "L'\U{00E9}pargne n'est pas une privation, c'est un investissement en vous-m\U{00EA}me",
    "Chaque euro \U{00E9}conomis\U{00E9} est un euro vers votre avenir",
    "Vos objectifs financiers refl\U{00E8}tent vos priorit\U{00E9}s de vie",
    "La patience et la pers\U{00E9}v\U{00E9}rance transforment les r\U{00EA}ves en r\U{00E9}alit\U{00E9}",
    "Un petit pas chaque jour m\U{00E8}ne \U{00E0} de grandes r\U{00E9}alisations",
    "Votre futur vous remerciera pour les efforts d'aujourd'hui",
    "Les grandes choses commencent par de petites d\U{00E9}cisions",
    "Investir en soi-m\U{00EA}me, c'est le meilleur investissement",
    "La richesse, c'est d'abord une discipline, pas une chance",
    "Chaque sacrifice d'aujourd'hui construit le confort de demain",
    "Vos r\U{00EA}ves sont \U{00E0} port\U{00E9}e de main, un budget \U{00E0} la fois",
    "La ma\U{00EE}trise de soi m\U{00E8}ne \U{00E0} la ma\U{00EE}trise de sa vie",
    "Construisez votre avenir pierre par pierre",
    "Le succ\U{00E8}s financier est une habitude, pas un accident",
    "Votre d\U{00E9}termination est votre plus grande richesse",
    "Chaque jour est une opportunit\U{00E9} d'avancer vers vos objectifs"
  ]

  /** `getQuoteByIndex`: the quote at `index % 20`. JavaScript's remainder keeps the sign of a
      negative index, which then falls outside the list and yields `undefined` (`None`). */
  function QuoteByIndex(index: int): (r: Option<string>)
    ensures index >= 0 ==> r.Some? && r.value == InspirationalQuotes[index % |InspirationalQuotes|]
    ensures r.Some? ==> r.value in InspirationalQuotes
    ensures index < 0 ==> (r.None? <==> index % |InspirationalQuotes| != 0)
    ensures index % |InspirationalQuotes| == 0 ==> r == Some(InspirationalQuotes[0])
  {
    var i := Rem(index, |InspirationalQuotes|);
    if 0 <= i then Some(InspirationalQuotes[i]) else None
  }

  lemma QuoteCount()
    ensures |InspirationalQuotes| == 20
  {
  }

  /** The first twenty indices give the quotes in list order. */
  lemma QuoteByIndexInRange(index: int)
    requires 0 <= index < 20
    ensures QuoteByIndex(index) == Some(InspirationalQuotes[index])
  {
    assert index % |InspirationalQuotes| == index;
  }

  /** The rotation repeats every twenty indices. */
  lemma QuoteByIndexPeriodic(index: int)
    requires index >= 0
    ensures QuoteByIndex(index + 20) == QuoteByIndex(index)
  {
    assert (index + 20) % 20 == index % 20;
  }

  /** A negative index that is not a multiple of twenty finds no quote, e.g. -1. */
  lemma NegativeIndexFindsNothing()
    ensures QuoteByIndex(-1).None?
    ensures QuoteByIndex(-20) == Some(InspirationalQuotes[0])
  {
  }
}
