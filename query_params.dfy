/** The tri-state boolean query parameter the tienda and empleado controllers both parse. */
module QueryParams {
  import opened Wrappers

  /** `q === 'true' ? true : q === 'false' ? false : undefined` */
  function ParseBool(q: Option<string>): (r: Option<bool>)
    ensures r == Some(true) <==> q == Some("true")
    ensures r == Some(false) <==> q == Some("false")
    ensures r.None? <==> q != Some("true") && q != Some("false")
  {
    if q == Some("true") then Some(true)
    else if q == Some("false") then Some(false)
    else None
  }

  /** Only the two exact lower-case spellings are recognised. */
  lemma OtherSpellingsIgnored()
    ensures ParseBool(None) == None
    ensures ParseBool(Some("TRUE")) == None && ParseBool(Some("1")) == None
    ensures ParseBool(Some("")) == None && ParseBool(Some("False")) == None
  {
  }
}
