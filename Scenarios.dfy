/** Client scenarios that follow the unit tests of Categoria: what a caller
    can conclude from the entity's contracts alone. */
module Scenarios {
  import opened Wrappers
  import opened Validation
  import opened Entities

  /** A blank or missing name makes construction fail with the blank-name
      error, whatever the description and the active flag. */
  method CreateWithBlankNome(id: Guid, agora: DateTime, nome: Option<string>, descricao: Option<string>, ativo: bool)
    returns (r: Result<Categoria, ErrorKind>)
    requires IsNullOrWhiteSpace(nome)
    ensures r == Failure(NomeVazioOuNulo)
  {
    r := Categoria.Create(id, agora, nome, descricao, ativo);
    BlankNomeReportedFirst(nome, descricao);
  }

  /** Constructing with an acceptable name and description succeeds, stores
      the given values and is active by default. */
  method CreateDefaultsToActive(id: Guid, agora: DateTime, nome: Option<string>, descricao: Option<string>)
    returns (c: Categoria)
    requires IsValid(nome, descricao)
    ensures c.Nome == nome && c.Descricao == descricao && c.Id == id && c.DataCriacao == agora
    ensures c.Ativo
  {
    var r := Categoria.Create(id, agora, nome, descricao);
    c := r.value;
  }

  /** Deactivating a valid category and then activating it twice never fails
      and ends active, with name and description untouched. */
  method InativarThenAtivarTwice(c: Categoria) returns (e1: Option<ErrorKind>, e2: Option<ErrorKind>, e3: Option<ErrorKind>)
    requires c.Valid()
    modifies c
    ensures e1 == None && e2 == None && e3 == None
    ensures c.Ativo
    ensures c.Nome == old(c.Nome) && c.Descricao == old(c.Descricao)
  {
    e1 := c.Inativar();
    assert !c.Ativo;
    e2 := c.Ativar();
    e3 := c.Ativar();
  }

  /** Updating a valid category with a non-blank name of at most 3 characters
      fails with the too-short error, and the short name stays in place. */
  method UpdateWithShortNomeKeepsIt(c: Categoria, nome: string) returns (err: Option<ErrorKind>)
    requires c.Valid()
    requires !IsNullOrWhiteSpace(Some(nome)) && |nome| <= NomeMinLength
    modifies c
    ensures err == Some(NomeMenorQue3)
    ensures c.Nome == Some(nome) && c.Descricao == old(c.Descricao) && !c.Valid()
  {
    err := c.Update(Some(nome));
  }
}
