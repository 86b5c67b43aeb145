/** The order-fields value object: `Pedido`. Its constructor is a chain of
    guards; on success it holds the three arguments unchanged. */
module Pedido {
  import opened Lang
  import opened Regex

  const CPF_NULO_OU_VAZIO := "CPF NAO PODE SER NULO OU VAZIO!"
  const CPF_INVALIDO := "CPF DO CLIENTE INV\U{C1}LIDO!"
  const EAN_INVALIDO := "EAN NAO PODE SER NULO OU MENOR E IGUAL A ZERO!"
  const QUANTIDADE_INVALIDA := "QUANTIDADE NAO PODE SER NULO OU MENOR E IGUAL A ZERO E MAIOR QUE 1000!"

  /** Largest quantity an order may ask for. */
  const MAX_QUANTIDADE: int := 1000

  /** `^\d{3}\.?\d{3}\.?\d{3}-?\d{2}$` */
  const REGEX_CPF: Pattern :=
    Digits(3) + [Term(Literal('.'), true)] + Digits(3) + [Term(Literal('.'), true)]
    + Digits(3) + [Term(Literal('-'), true)] + Digits(2)

  predicate CpfMatches(cpf: string) {
    FullMatch(REGEX_CPF, cpf)
  }

  datatype Pedido = Pedido(cpfCliente: string, ean: Long, quantidade: Long)
  {
    /** The invariant every constructed `Pedido` satisfies. */
    predicate Valid() {
      |cpfCliente| > 0 && CpfMatches(cpfCliente) && ean > 0 && 0 < quantidade <= MAX_QUANTIDADE
    }
  }

  /** `new Pedido(cpfCliente, ean, quantidade)`: `None` is a `null` argument.
      The checks run in order and the first one that fails decides the
      exception; when none fails, the getters return the arguments. */
  function New(cpfCliente: Option<string>, ean: Option<Long>, quantidade: Option<Long>)
    : (r: Result<Pedido, IllegalArgumentException>)
    ensures r.Ok? <==> cpfCliente.Some? && ean.Some? && quantidade.Some?
                       && Pedido(cpfCliente.value, ean.value, quantidade.value).Valid()
    ensures r.Ok? ==> r.value == Pedido(cpfCliente.value, ean.value, quantidade.value)
    ensures (cpfCliente.None? || cpfCliente.value == [])
            ==> r == Err(IllegalArgumentException(CPF_NULO_OU_VAZIO))
    ensures cpfCliente.Some? && cpfCliente.value != [] && !CpfMatches(cpfCliente.value)
            ==> r == Err(IllegalArgumentException(CPF_INVALIDO))
    ensures cpfCliente.Some? && cpfCliente.value != [] && CpfMatches(cpfCliente.value)
            && (ean.None? || ean.value <= 0)
            ==> r == Err(IllegalArgumentException(EAN_INVALIDO))
    ensures cpfCliente.Some? && cpfCliente.value != [] && CpfMatches(cpfCliente.value)
            && ean.Some? && ean.value > 0
            && (quantidade.None? || quantidade.value <= 0 || quantidade.value > MAX_QUANTIDADE)
            ==> r == Err(IllegalArgumentException(QUANTIDADE_INVALIDA))
  {
    if cpfCliente.None? || |cpfCliente.value| == 0 then
      Err(IllegalArgumentException(CPF_NULO_OU_VAZIO))
    else if !CpfMatches(cpfCliente.value) then
      Err(IllegalArgumentException(CPF_INVALIDO))
    else if ean.None? || ean.value <= 0 then
      Err(IllegalArgumentException(EAN_INVALIDO))
    else if quantidade.None? || quantidade.value <= 0 || quantidade.value > MAX_QUANTIDADE then
      Err(IllegalArgumentException(QUANTIDADE_INVALIDA))
    else
      Ok(Pedido(cpfCliente.value, ean.value, quantidade.value))
  }

  // ---------------------------------------------------------------------
  // What REGEX_CPF accepts

  /** Eleven digits laid out as the pattern allows: groups of 3, 3, 3 and 2,
      each separator present or not. */
  function CpfLayout(d: string, dot1: bool, dot2: bool, dash: bool): (s: string)
    requires |d| == 11
    ensures |s| == 11 + (if dot1 then 1 else 0) + (if dot2 then 1 else 0) + (if dash then 1 else 0)
  {
    d[..3] + (if dot1 then "." else "") + d[3..6] + (if dot2 then "." else "")
    + d[6..9] + (if dash then "-" else "") + d[9..]
  }

  /** The shape of the pattern, term by term. */
  lemma CpfPatternTerms()
    ensures |REGEX_CPF| == 14
    ensures forall j :: 0 <= j < 14 ==>
      REGEX_CPF[j] == if j == 3 || j == 7 then Term(Literal('.'), true)
                      else if j == 11 then Term(Literal('-'), true)
                      else Term(Digit, false)
  {
  }

  lemma CpfPatternCounts()
    ensures DigitsMandatory(REGEX_CPF)
    ensures DigitTerms(REGEX_CPF) == 11 && MinLength(REGEX_CPF) == 11
    ensures DigitTerms(REGEX_CPF[..3]) == 3
    ensures DigitTerms(REGEX_CPF[..7]) == 6
    ensures DigitTerms(REGEX_CPF[..11]) == 9
    ensures REGEX_CPF[12..] == Digits(2)
  {
    CpfPatternTerms();
    var dot, dash := [Term(Literal('.'), true)], [Term(Literal('-'), true)];
    DigitsCounts(3);
    DigitsCounts(2);
    var a := Digits(3) + dot;
    var b := a + Digits(3) + dot;
    var c := b + Digits(3) + dash;
    DigitTermsAppend(Digits(3), dot);
    DigitTermsAppend(a, Digits(3));
    DigitTermsAppend(a + Digits(3), dot);
    DigitTermsAppend(b, Digits(3));
    DigitTermsAppend(b + Digits(3), dash);
    DigitTermsAppend(c, Digits(2));
    MinLengthAppend(Digits(3), dot);
    MinLengthAppend(a, Digits(3));
    MinLengthAppend(a + Digits(3), dot);
    MinLengthAppend(b, Digits(3));
    MinLengthAppend(b + Digits(3), dash);
    MinLengthAppend(c, Digits(2));
    assert REGEX_CPF == c + Digits(2);
    assert REGEX_CPF[..3] == Digits(3);
    assert REGEX_CPF[..7] == a + Digits(3);
    assert REGEX_CPF[..11] == b + Digits(3);
  }

  /** Every accepted CPF holds exactly eleven ASCII digits and is eleven to
      fourteen characters long. */
  lemma AcceptedCpfSize(cpf: string)
    requires CpfMatches(cpf)
    ensures CountDigits(cpf) == 11
    ensures 11 <= |cpf| <= 14
  {
    CpfPatternCounts();
    CpfPatternTerms();
    DigitCount(REGEX_CPF, cpf);
    LengthBounds(REGEX_CPF, cpf);
  }

  /** In an accepted CPF every character is a digit, '.' or '-'; a '.'
      stands only right after the third or the sixth digit and has a digit
      on each side, and a '-' only right after the ninth digit, just before
      the last two characters, which start with a digit. With
      `AcceptedCpfSize` this fixes the layout: at most one '.' per slot, so
      the accepted strings are exactly those `CpfLayoutAccepted` builds. */
  lemma AcceptedCpfSeparators(cpf: string)
    requires CpfMatches(cpf)
    ensures forall i :: 0 <= i < |cpf| ==> IsDigit(cpf[i]) || cpf[i] == '.' || cpf[i] == '-'
    ensures forall i {:trigger cpf[i]} :: 0 <= i < |cpf| && cpf[i] == '.' ==>
      (CountDigits(cpf[..i]) == 3 || CountDigits(cpf[..i]) == 6)
      && 0 < i && IsDigit(cpf[i - 1]) && i + 1 < |cpf| && IsDigit(cpf[i + 1])
    ensures forall i {:trigger cpf[i]} :: 0 <= i < |cpf| && cpf[i] == '-' ==>
      i == |cpf| - 3 && CountDigits(cpf[..i]) == 9 && IsDigit(cpf[i + 1])
  {
    forall i {:trigger cpf[i]} | 0 <= i < |cpf|
      ensures IsDigit(cpf[i]) || cpf[i] == '.' || cpf[i] == '-'
      ensures cpf[i] == '.' ==> (CountDigits(cpf[..i]) == 3 || CountDigits(cpf[..i]) == 6)
                                && 0 < i && IsDigit(cpf[i - 1]) && i + 1 < |cpf| && IsDigit(cpf[i + 1])
      ensures cpf[i] == '-' ==> i == |cpf| - 3 && CountDigits(cpf[..i]) == 9 && IsDigit(cpf[i + 1])
    {
      CpfCharacter(cpf, i);
      if cpf[i] == '.' {
        assert cpf[..0] == [];
        assert 0 < i;
        CpfCharacter(cpf, i - 1);
      }
    }
  }

  /** The facts behind `AcceptedCpfSeparators` for the character at `i`:
      the term of `REGEX_CPF` that consumed it, and the mandatory digit term
      that follows each separator term. */
  lemma CpfCharacter(cpf: string, i: nat)
    requires CpfMatches(cpf) && i < |cpf|
    ensures IsDigit(cpf[i]) || cpf[i] == '.' || cpf[i] == '-'
    ensures cpf[i] == '.' ==> (CountDigits(cpf[..i]) == 3 || CountDigits(cpf[..i]) == 6)
                              && i + 1 < |cpf| && IsDigit(cpf[i + 1])
    ensures cpf[i] == '-' ==> i == |cpf| - 3 && CountDigits(cpf[..i]) == 9 && IsDigit(cpf[i + 1])
  {
    CpfPatternCounts();
    CpfPatternTerms();
    DigitsCounts(2);
    ConsumedBy(REGEX_CPF, cpf, i);
    var j :| 0 <= j < |REGEX_CPF| && AtomMatches(REGEX_CPF[j].atom, cpf[i])
             && CountDigits(cpf[..i]) == DigitTerms(REGEX_CPF[..j])
             && FullMatch(REGEX_CPF[j + 1..], cpf[i + 1..]);
    if cpf[i] == '.' {
      assert j == 3 || j == 7;
      assert REGEX_CPF[j + 1..][0] == Term(Digit, false);
    }
    if cpf[i] == '-' {
      assert j == 11;
      LengthBounds(REGEX_CPF[12..], cpf[i + 1..]);
      assert REGEX_CPF[12..][0] == Term(Digit, false);
    }
  }

  /** Conversely, every layout of eleven digits is accepted: with or without
      each '.', with or without the '-'. */
  lemma {:induction false} CpfLayoutAccepted(d: string, dot1: bool, dot2: bool, dash: bool)
    requires |d| == 11 && forall k :: 0 <= k < 11 ==> IsDigit(d[k])
    ensures CpfMatches(CpfLayout(d, dot1, dot2, dash))
  {
    var dot, hyphen := [Term(Literal('.'), true)], [Term(Literal('-'), true)];
    var s1, s2, s3 := (if dot1 then "." else ""), (if dot2 then "." else ""), (if dash then "-" else "");
    DigitsMatch(3, d[..3]);
    DigitsMatch(3, d[3..6]);
    DigitsMatch(3, d[6..9]);
    DigitsMatch(2, d[9..]);
    OptionalMatch('.', dot1);
    OptionalMatch('.', dot2);
    OptionalMatch('-', dash);
    MatchConcat(Digits(3), d[..3], dot, s1);
    MatchConcat(Digits(3) + dot, d[..3] + s1, Digits(3), d[3..6]);
    MatchConcat(Digits(3) + dot + Digits(3), d[..3] + s1 + d[3..6], dot, s2);
    MatchConcat(Digits(3) + dot + Digits(3) + dot, d[..3] + s1 + d[3..6] + s2, Digits(3), d[6..9]);
    MatchConcat(Digits(3) + dot + Digits(3) + dot + Digits(3), d[..3] + s1 + d[3..6] + s2 + d[6..9], hyphen, s3);
    MatchConcat(Digits(3) + dot + Digits(3) + dot + Digits(3) + hyphen,
                d[..3] + s1 + d[3..6] + s2 + d[6..9] + s3, Digits(2), d[9..]);
  }

  // ---------------------------------------------------------------------
  // The boundary cases the constructor is documented with

  const CPF_EXEMPLO := "71622958004"

  /** The documented accepted CPF, bare and punctuated. */
  lemma CpfExamples()
    ensures CpfMatches(CPF_EXEMPLO)
    ensures CpfMatches("716.229.580-04")
  {
    CpfLayoutAccepted(CPF_EXEMPLO, false, false, false);
    assert CpfLayout(CPF_EXEMPLO, false, false, false) == CPF_EXEMPLO;
    CpfLayoutAccepted(CPF_EXEMPLO, true, true, true);
    assert CPF_EXEMPLO[..3] == "716" && CPF_EXEMPLO[3..6] == "229";
    assert CPF_EXEMPLO[6..9] == "580" && CPF_EXEMPLO[9..] == "04";
    assert CpfLayout(CPF_EXEMPLO, true, true, true) == "716.229.580-04";
  }

  /** The documented rejected CPFs: empty, blank, alphabetic, ten and
      twelve digits. */
  lemma CpfCounterExamples()
    ensures !CpfMatches("") && !CpfMatches(" ") && !CpfMatches("teste")
    ensures !CpfMatches("1234567891") && !CpfMatches("123456789123")
  {
    CpfRejectedByDigitCount("");
    CpfRejectedByDigitCount(" ");
    CpfRejectedByDigitCount("teste");
    CpfRejectedByDigitCount("1234567891");
    assert CountDigits("123456789123") == 12;
    CpfRejectedByDigitCount("123456789123");
  }

  /** A '.' that does not directly follow a digit is rejected, even when the
      digit count before it is right. */
  lemma CpfRejectedByMisplacedDot(s: string, i: nat)
    requires 0 < i < |s| && s[i] == '.' && !IsDigit(s[i - 1])
    ensures !CpfMatches(s)
  {
    if CpfMatches(s) {
      AcceptedCpfSeparators(s);
    }
  }

  /** Two '.' in one slot, with eleven digits and the '-' in place. */
  lemma CpfDoubleDotRejected()
    ensures !CpfMatches("123456..789-01")
  {
    CpfRejectedByMisplacedDot("123456..789-01", 7);
  }

  /** Anything with other than eleven digits is rejected. */
  lemma CpfRejectedByDigitCount(s: string)
    requires CountDigits(s) != 11
    ensures !CpfMatches(s)
  {
    if CpfMatches(s) {
      AcceptedCpfSize(s);
    }
  }

  /** The documented field boundaries: quantity 1000 is accepted; 1001, 0,
      -1 and `null` are rejected, as are cpf `null`, "" and malformed
      values and ean `null`, 0 and -1. */
  lemma ConstructorBoundaries()
    ensures New(Some(CPF_EXEMPLO), Some(7894900011517), Some(1000)).Ok?
    ensures New(Some(CPF_EXEMPLO), Some(7894900011517), Some(1)).Ok?
    ensures New(Some(CPF_EXEMPLO), Some(123456789), Some(1001)) == Err(IllegalArgumentException(QUANTIDADE_INVALIDA))
    ensures New(Some(CPF_EXEMPLO), Some(123456789), Some(0)) == Err(IllegalArgumentException(QUANTIDADE_INVALIDA))
    ensures New(Some(CPF_EXEMPLO), Some(123456789), Some(-1)) == Err(IllegalArgumentException(QUANTIDADE_INVALIDA))
    ensures New(Some(CPF_EXEMPLO), Some(123456789), None) == Err(IllegalArgumentException(QUANTIDADE_INVALIDA))
    ensures New(Some(CPF_EXEMPLO), None, Some(100)) == Err(IllegalArgumentException(EAN_INVALIDO))
    ensures New(Some(CPF_EXEMPLO), Some(0), Some(100)) == Err(IllegalArgumentException(EAN_INVALIDO))
    ensures New(Some(CPF_EXEMPLO), Some(-1), Some(100)) == Err(IllegalArgumentException(EAN_INVALIDO))
    ensures New(None, Some(123456789), Some(100)) == Err(IllegalArgumentException(CPF_NULO_OU_VAZIO))
    ensures New(Some(""), Some(123456789), Some(100)) == Err(IllegalArgumentException(CPF_NULO_OU_VAZIO))
    ensures New(Some(" "), Some(123456789), Some(100)) == Err(IllegalArgumentException(CPF_INVALIDO))
    ensures New(Some("teste"), Some(123456789), Some(100)) == Err(IllegalArgumentException(CPF_INVALIDO))
    ensures New(Some("1234567891"), Some(123456789), Some(100)) == Err(IllegalArgumentException(CPF_INVALIDO))
    ensures New(Some("123456789123"), Some(123456789), Some(100)) == Err(IllegalArgumentException(CPF_INVALIDO))
  {
    CpfExamples();
    CpfCounterExamples();
  }
}
