/** The string operations the inventory relies on: `toLowerCase` and `includes`. */
module Textos {

  /** The upper-case letters `toLowerCase` maps in this model: A to Z, and the
      Latin-1 capitals U+00C0 to U+00DE except the multiplication sign U+00D7. */
  predicate EhMaiuscula(c: char) {
    ('A' <= c <= 'Z') || ('\U{C0}' <= c <= '\U{DE}' && c != '\U{D7}')
  }

  /** Each such capital has its small letter 32 code points further on. */
  function MinusculaChar(c: char): (r: char)
    ensures !EhMaiuscula(r)
    ensures !EhMaiuscula(c) ==> r == c
  {
    if EhMaiuscula(c) then (c as int + 32) as char else c
  }

  /** `String.prototype.toLowerCase`, character by character. */
  function Minusculas(s: string): (r: string)
    ensures |r| == |s|
    ensures forall i :: 0 <= i < |s| ==> r[i] == MinusculaChar(s[i])
  {
    if s == [] then [] else [MinusculaChar(s[0])] + Minusculas(s[1..])
  }

  /** Lower-casing twice is lower-casing once. */
  lemma MinusculasIdempotente(s: string)
    ensures Minusculas(Minusculas(s)) == Minusculas(s)
  {
  }

  /** `t` occurs in `s` starting at index `i`. */
  ghost predicate OcorreEm(t: string, s: string, i: int) {
    0 <= i && i + |t| <= |s| && s[i..i + |t|] == t
  }

  /** `String.prototype.includes`: `t` is a substring of `s`. */
  function Contem(s: string, t: string): (r: bool)
    ensures r <==> exists i :: OcorreEm(t, s, i)
    decreases |s|
  {
    if |t| > |s| then false
    else if s[..|t|] == t then assert OcorreEm(t, s, 0); true
    else
      assert forall i :: OcorreEm(t, s[1..], i) <==> OcorreEm(t, s, i + 1);
      assert !OcorreEm(t, s, 0);
      assert (exists i :: OcorreEm(t, s, i)) ==> exists i :: OcorreEm(t, s[1..], i) by {
        if exists i :: OcorreEm(t, s, i) {
          var i :| OcorreEm(t, s, i);
          assert OcorreEm(t, s[1..], i - 1);
        }
      }
      Contem(s[1..], t)
  }

  /** Every string contains the empty string and itself. */
  lemma ContemVazioEProprio(s: string)
    ensures Contem(s, "") && Contem(s, s)
  {
    assert OcorreEm("", s, 0);
    assert OcorreEm(s, s, 0);
  }

  /** The confirmation test `toLowerCase() === 's'` accepts exactly "s" and "S". */
  lemma ConfirmacaoSomenteS(c: string)
    ensures Minusculas(c) == "s" <==> c == "s" || c == "S"
  {
    if Minusculas(c) == "s" {
      assert |c| == 1 && MinusculaChar(c[0]) == 's';
      assert c == [c[0]];
    }
  }
}
