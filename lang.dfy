/** Simulator languages (src/api/utilities/lang.rs). */
module Languages {
  import opened Wrappers
  import opened UtilitiesErrors

  datatype Language =
    | Unknown | English | French | German | Italian | Spanish
    | Korean | Russian | Greek | Japanese | Chinese

  /** The SDK's `xplm_Language_*` constant of each language. */
  function Code(l: Language): (c: int)
    ensures 0 <= c <= 10
  {
    match l
    case Unknown => 0
    case English => 1
    case French => 2
    case German => 3
    case Italian => 4
    case Spanish => 5
    case Korean => 6
    case Russian => 7
    case Greek => 8
    case Japanese => 9
    case Chinese => 10
  }

  /** `TryFrom<XPLMLanguageCode>`: the eleven SDK codes decode, any other code is kept in the error. */
  function TryFrom(code: int): (r: Result<Language, UtilitiesError>)
    ensures r.Ok? <==> 0 <= code <= 10
    ensures r.Ok? ==> Code(r.value) == code
    ensures r.Err? ==> r.error == UnknownLanguageCode(code)
  {
    if code == 0 then Ok(Unknown)
    else if code == 1 then Ok(English)
    else if code == 2 then Ok(French)
    else if code == 3 then Ok(German)
    else if code == 4 then Ok(Italian)
    else if code == 5 then Ok(Spanish)
    else if code == 6 then Ok(Korean)
    else if code == 7 then Ok(Russian)
    else if code == 8 then Ok(Greek)
    else if code == 9 then Ok(Japanese)
    else if code == 10 then Ok(Chinese)
    else Err(UnknownLanguageCode(code))
  }

  /** Every language decodes from its own code, so no two languages share one. */
  lemma TryFromCode(l: Language)
    ensures TryFrom(Code(l)) == Ok(l)
  {
  }

  lemma CodeInjective(a: Language, b: Language)
    ensures Code(a) == Code(b) ==> a == b
  {
    TryFromCode(a);
    TryFromCode(b);
  }
}
