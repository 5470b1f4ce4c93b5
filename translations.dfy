/** The interface-text lookup: each key has an English and a Swahili entry; the local
    languages read the Swahili column or the English one, and a missing entry falls back
    to English and then to the key itself. */
module Translations {
  import opened Domain

  datatype Entry = Entry(en: string, sw: string)

  type Dictionary = map<string, Entry>

  /** The column a language reads: Swahili for sw, ki, luo and luy; English otherwise. */
  datatype Column = English | Swahili

  function ColumnOf(lang: Language): (c: Column)
    ensures c == Swahili <==> lang in {Sw, Ki, Luo, Luy}
  {
    if lang == Sw || lang == Ki || lang == Luo || lang == Luy then Swahili else English
  }

  function EntryIn(e: Entry, c: Column): string
  {
    match c
    case English => e.en
    case Swahili => e.sw
  }

  /** The text shown for key in lang. */
  function T(dict: Dictionary, key: string, lang: Language): (text: string)
    ensures key in dict && EntryIn(dict[key], ColumnOf(lang)) != "" ==> text == EntryIn(dict[key], ColumnOf(lang))
    ensures key in dict && EntryIn(dict[key], ColumnOf(lang)) == "" && dict[key].en != "" ==> text == dict[key].en
    ensures key in dict && EntryIn(dict[key], ColumnOf(lang)) == "" && dict[key].en == "" ==> text == key
    ensures key !in dict ==> text == key
  {
    var c := ColumnOf(lang);
    if key in dict && EntryIn(dict[key], c) != "" then EntryIn(dict[key], c)
    else if key in dict && dict[key].en != "" then dict[key].en
    else key
  }

  /** A non-empty key never shows as empty text. */
  lemma NeverEmpty(dict: Dictionary, key: string, lang: Language)
    requires key != ""
    ensures T(dict, key, lang) != ""
  {
  }

  /** Languages that read the same column see the same text. */
  lemma SameColumnSameText(dict: Dictionary, key: string, a: Language, b: Language)
    requires ColumnOf(a) == ColumnOf(b)
    ensures T(dict, key, a) == T(dict, key, b)
  {
  }

  /** Kikuyu, Luo and Luhya show the Swahili text, Kalenjin and Maasai the English text. */
  lemma DialectsCollapse(dict: Dictionary, key: string)
    ensures T(dict, key, Ki) == T(dict, key, Sw) && T(dict, key, Luo) == T(dict, key, Sw) && T(dict, key, Luy) == T(dict, key, Sw)
    ensures T(dict, key, Kal) == T(dict, key, En) && T(dict, key, Maa) == T(dict, key, En)
  {
  }

  /** English text never differs from the English entry when that entry is non-empty. */
  lemma EnglishReadsEnglish(dict: Dictionary, key: string)
    requires key in dict && dict[key].en != ""
    ensures T(dict, key, En) == dict[key].en
  {
  }
}
