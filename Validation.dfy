/** The validation rules of a Categoria (Categoria.Validate): a fixed, ordered
    list of checks on the name (Nome) and the description (Descricao). The first
    check that fails decides the error; later checks are not reached. */
module Validation {
  import opened Wrappers

  /** One case per check of Categoria.Validate, each standing for the fixed
      message of the EntityValidationException that check raises. */
  datatype ErrorKind =
    | NomeVazioOuNulo         // "Nome não pode ser vazio ou nulo."
    | NomeMenorQue3           // "Nome não pode ser menor que 3 caracteres."
    | NomeMaiorQue255         // "Nome não pode ser maior que 255 caracteres."
    | DescricaoNula           // "Descricao não pode ser nulo."
    | DescricaoMaiorQue10000  // "Descricao não conter mais que 10000 caracteres."

  /** A name must be strictly longer than this. */
  const NomeMinLength := 3
  /** A name may be at most this long. */
  const NomeMaxLength := 255
  /** A description may be at most this long. */
  const DescricaoMaxLength := 10000

  /** .NET's char.IsWhiteSpace: the Unicode space, line and paragraph
      separators (Zs, Zl, Zp) plus the control characters U+0009..U+000D and U+0085. */
  predicate IsWhiteSpace(c: char) {
    || c == ' '
    || ('\t' <= c <= '\r')
    || c == '\U{0085}'
    || c == '\U{00A0}'
    || c == '\U{1680}'
    || ('\U{2000}' <= c <= '\U{200A}')
    || c == '\U{2028}'
    || c == '\U{2029}'
    || c == '\U{202F}'
    || c == '\U{205F}'
    || c == '\U{3000}'
  }

  /** string.IsNullOrWhiteSpace: null, empty, or made only of white space. */
  predicate IsNullOrWhiteSpace(s: Option<string>) {
    match s
    case None => true
    case Some(t) => forall i :: 0 <= i < |t| ==> IsWhiteSpace(t[i])
  }

  /** The name on its own meets every rule about names. */
  predicate NomeOk(nome: Option<string>) {
    && nome.Some?
    && !IsNullOrWhiteSpace(nome)
    && NomeMinLength < |nome.value| <= NomeMaxLength
  }

  /** The description on its own meets every rule about descriptions. */
  predicate DescricaoOk(descricao: Option<string>) {
    descricao.Some? && |descricao.value| <= DescricaoMaxLength
  }

  /** The validity predicate: the state a Categoria must be in for Validate to pass. */
  predicate IsValid(nome: Option<string>, descricao: Option<string>) {
    NomeOk(nome) && DescricaoOk(descricao)
  }

  /** The condition each check tests, on its own, regardless of the checks before it. */
  predicate Violates(k: ErrorKind, nome: Option<string>, descricao: Option<string>) {
    match k
    case NomeVazioOuNulo => IsNullOrWhiteSpace(nome)
    case NomeMenorQue3 => nome.Some? && |nome.value| <= NomeMinLength
    case NomeMaiorQue255 => nome.Some? && |nome.value| > NomeMaxLength
    case DescricaoNula => descricao.None?
    case DescricaoMaiorQue10000 => descricao.Some? && |descricao.value| > DescricaoMaxLength
  }

  /** The order in which Validate runs its checks. */
  const RuleOrder: seq<ErrorKind> :=
    [NomeVazioOuNulo, NomeMenorQue3, NomeMaiorQue255, DescricaoNula, DescricaoMaiorQue10000]

  /** Position of a check in RuleOrder. */
  function Rank(k: ErrorKind): (i: nat)
    ensures i < |RuleOrder| && RuleOrder[i] == k
  {
    match k
    case NomeVazioOuNulo => 0
    case NomeMenorQue3 => 1
    case NomeMaiorQue255 => 2
    case DescricaoNula => 3
    case DescricaoMaiorQue10000 => 4
  }

  /** Reference definition of "first failing check": scan a list of checks
      in order and report the first one the state violates. */
  function FirstViolated(rules: seq<ErrorKind>, nome: Option<string>, descricao: Option<string>): (r: Option<ErrorKind>)
    ensures r.None? <==> forall i :: 0 <= i < |rules| ==> !Violates(rules[i], nome, descricao)
    ensures r.Some? ==>
      exists i :: 0 <= i < |rules| && rules[i] == r.value && Violates(rules[i], nome, descricao) &&
        forall j :: 0 <= j < i ==> !Violates(rules[j], nome, descricao)
  {
    if rules == [] then None
    else if Violates(rules[0], nome, descricao) then Some(rules[0])
    else
      var r := FirstViolated(rules[1..], nome, descricao);
      assert forall i :: 1 <= i < |rules| ==> rules[i] == rules[1..][i - 1];
      if r.Some? then
        ghost var i :| 0 <= i < |rules[1..]| && rules[1..][i] == r.value && Violates(rules[1..][i], nome, descricao) &&
          forall j :: 0 <= j < i ==> !Violates(rules[1..][j], nome, descricao);
        assert rules[i + 1] == r.value;
        assert forall j :: 0 <= j < i + 1 ==> !Violates(rules[j], nome, descricao) by {
          forall j | 0 <= j < i + 1 ensures !Violates(rules[j], nome, descricao) {
            if j > 0 { assert rules[j] == rules[1..][j - 1]; }
          }
        }
        r
      else r
  }

  /** Categoria.Validate as an early-exit chain over the current name and
      description: None when every check passes, otherwise the failing check. */
  function Validate(nome: Option<string>, descricao: Option<string>): (r: Option<ErrorKind>)
    ensures r.None? <==> IsValid(nome, descricao)
    ensures r.Some? ==> Violates(r.value, nome, descricao)
  {
    if IsNullOrWhiteSpace(nome) then Some(NomeVazioOuNulo)
    else if |nome.value| <= NomeMinLength then Some(NomeMenorQue3)
    else if |nome.value| > NomeMaxLength then Some(NomeMaiorQue255)
    else if descricao.None? then Some(DescricaoNula)
    else if |descricao.value| > DescricaoMaxLength then Some(DescricaoMaiorQue10000)
    else None
  }

  /** One step of the scan: the head check decides, or the scan moves on. */
  lemma FirstViolatedStep(k: ErrorKind, rest: seq<ErrorKind>, nome: Option<string>, descricao: Option<string>)
    ensures FirstViolated([k] + rest, nome, descricao) ==
      if Violates(k, nome, descricao) then Some(k) else FirstViolated(rest, nome, descricao)
  {
  }

  /** Validate reports exactly the first check, in RuleOrder, that the state violates. */
  lemma ValidateReportsFirstViolation(nome: Option<string>, descricao: Option<string>)
    ensures Validate(nome, descricao) == FirstViolated(RuleOrder, nome, descricao)
  {
    var n, d := nome, descricao;
    FirstViolatedStep(DescricaoMaiorQue10000, [], n, d);
    FirstViolatedStep(DescricaoNula, [DescricaoMaiorQue10000], n, d);
    FirstViolatedStep(NomeMaiorQue255, [DescricaoNula, DescricaoMaiorQue10000], n, d);
    FirstViolatedStep(NomeMenorQue3, [NomeMaiorQue255, DescricaoNula, DescricaoMaiorQue10000], n, d);
    FirstViolatedStep(NomeVazioOuNulo, [NomeMenorQue3, NomeMaiorQue255, DescricaoNula, DescricaoMaiorQue10000], n, d);
  }

  /** Error order: Validate reports k exactly when k is violated and every
      check that runs before k passes. */
  lemma ErrorOrder(nome: Option<string>, descricao: Option<string>, k: ErrorKind)
    ensures Validate(nome, descricao) == Some(k) <==>
      Violates(k, nome, descricao) && forall j :: 0 <= j < Rank(k) ==> !Violates(RuleOrder[j], nome, descricao)
  {
    ValidateReportsFirstViolation(nome, descricao);
    var r := FirstViolated(RuleOrder, nome, descricao);
    if r == Some(k) {
      var i :| 0 <= i < |RuleOrder| && RuleOrder[i] == k && Violates(RuleOrder[i], nome, descricao) &&
        forall j :: 0 <= j < i ==> !Violates(RuleOrder[j], nome, descricao);
      assert i == Rank(k);
    }
    if Violates(k, nome, descricao) && forall j :: 0 <= j < Rank(k) ==> !Violates(RuleOrder[j], nome, descricao) {
      assert r.Some?;
      var i :| 0 <= i < |RuleOrder| && RuleOrder[i] == r.value && Violates(RuleOrder[i], nome, descricao) &&
        forall j :: 0 <= j < i ==> !Violates(RuleOrder[j], nome, descricao);
      assert i == Rank(k);
    }
  }

  /** A null, empty or white-space-only name is always reported as such, and
      only such a name is: never a length error, whatever the description. */
  lemma BlankNomeReportedFirst(nome: Option<string>, descricao: Option<string>)
    ensures Validate(nome, descricao) == Some(NomeVazioOuNulo) <==> IsNullOrWhiteSpace(nome)
  {
  }

  /** Name length boundaries for a non-blank name and an acceptable
      description: at most 3 characters is too short (3 itself included),
      more than 255 too long, anything in between passes. */
  lemma NomeLengthBoundaries(nome: string, descricao: Option<string>)
    requires !IsNullOrWhiteSpace(Some(nome)) && DescricaoOk(descricao)
    ensures Validate(Some(nome), descricao) == Some(NomeMenorQue3) <==> |nome| <= NomeMinLength
    ensures Validate(Some(nome), descricao) == Some(NomeMaiorQue255) <==> |nome| > NomeMaxLength
    ensures Validate(Some(nome), descricao) == None <==> NomeMinLength < |nome| <= NomeMaxLength
  {
  }

  /** Description length boundary for an acceptable name: a present
      description fails exactly when it has more than 10000 characters. */
  lemma DescricaoLengthBoundary(nome: Option<string>, descricao: string)
    requires NomeOk(nome)
    ensures Validate(nome, Some(descricao)) == Some(DescricaoMaiorQue10000) <==> |descricao| > DescricaoMaxLength
    ensures Validate(nome, Some(descricao)) == None <==> |descricao| <= DescricaoMaxLength
  {
  }

  /** The name checks run first: when the name is unacceptable the reported
      error is a name error and the description plays no part in it. */
  lemma NomeErrorsIgnoreDescricao(nome: Option<string>, d1: Option<string>, d2: Option<string>)
    requires !NomeOk(nome)
    ensures Validate(nome, d1) == Validate(nome, d2)
    ensures Validate(nome, d1) in {Some(NomeVazioOuNulo), Some(NomeMenorQue3), Some(NomeMaiorQue255)}
  {
  }

  /** Any two acceptable descriptions yield the same verdict on a name, so a
      name is rejected with the same error by the constructor and by Update. */
  lemma ValidDescricaoIrrelevant(nome: Option<string>, d1: Option<string>, d2: Option<string>)
    requires DescricaoOk(d1) && DescricaoOk(d2)
    ensures Validate(nome, d1) == Validate(nome, d2)
    ensures Validate(nome, d1).None? <==> NomeOk(nome)
  {
  }

  /** A string of n copies of c (the tests build over-long values this way). */
  function Repeat(c: char, n: nat): (s: string)
    ensures |s| == n
    ensures forall i :: 0 <= i < n ==> s[i] == c
  {
    if n == 0 then [] else Repeat(c, n - 1) + [c]
  }

  /** A name of 256 letters is rejected as too long, whatever the description. */
  lemma Nome256Rejected(descricao: Option<string>)
    ensures Validate(Some(Repeat('a', 256)), descricao) == Some(NomeMaiorQue255)
  {
    var s := Repeat('a', 256);
    assert !IsWhiteSpace(s[0]);
  }

  /** A description of 10001 letters is rejected once the name is acceptable. */
  lemma Descricao10001Rejected(nome: Option<string>)
    requires NomeOk(nome)
    ensures Validate(nome, Some(Repeat('a', 10001))) == Some(DescricaoMaiorQue10000)
  {
  }

  /** The one- and two-character prefixes of a name that does not start with
      white space are rejected as too short. */
  lemma ShortPrefixRejected(nome: string, k: nat, descricao: Option<string>)
    requires 1 <= k <= 2 && k <= |nome| && !IsWhiteSpace(nome[0])
    ensures Validate(Some(nome[..k]), descricao) == Some(NomeMenorQue3)
  {
  }
}
