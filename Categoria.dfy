/** The Categoria entity: a catalog category with an identifier, a name, a
    description, an active flag and a creation time. Every construction and
    every mutation re-runs Validation.Validate on the name and description;
    mutations write their fields first and validate afterwards, so a failed
    mutation leaves its writes in place. */
module Entities {
  import opened Wrappers
  import opened Validation

  /** System.Guid: a 128-bit identifier. */
  newtype Guid = x: int | 0 <= x < 0x1_0000_0000_0000_0000_0000_0000_0000_0000

  /** System.DateTime, as its tick count (100 ns units since 0001-01-01). */
  newtype DateTime = t: int | 0 <= t <= 3_155_378_975_999_999_999

  class Categoria {
    /** Assigned once, at construction; the setter is private and never used again. */
    const Id: Guid
    /** Assigned once, at construction. */
    const DataCriacao: DateTime
    /** A null reference is None. */
    var Nome: Option<string>
    var Descricao: Option<string>
    var Ativo: bool

    /** The state Validate accepts. It is not an invariant of the object:
        a failed Update leaves an invalid state behind. */
    predicate Valid()
      reads this
    {
      IsValid(Nome, Descricao)
    }

    /** The field assignments of the constructor, for values that pass
        validation: an object the constructor rejects is never seen by its
        caller. The fresh identifier and the current time are supplied by the caller. */
    constructor Init(id: Guid, dataCriacao: DateTime, nome: Option<string>, descricao: Option<string>, ativo: bool)
      requires IsValid(nome, descricao)
      ensures Id == id && DataCriacao == dataCriacao
      ensures Nome == nome && Descricao == descricao && Ativo == ativo
    {
      Id := id;
      Nome := nome;
      Descricao := descricao;
      Ativo := ativo;
      DataCriacao := dataCriacao;
    }

    /** The C# constructor: store the fields, then validate. On failure the
        caller gets the error and no object; on success an object holding
        exactly the given values. `ativo` defaults to true. */
    static method Create(id: Guid, dataCriacao: DateTime, nome: Option<string>, descricao: Option<string>, ativo: bool := true)
      returns (r: Result<Categoria, ErrorKind>)
      ensures r.Success? <==> IsValid(nome, descricao)
      ensures r.Failure? ==> Validate(nome, descricao) == Some(r.error)
      ensures r.Success? ==>
        && fresh(r.value)
        && r.value.Id == id && r.value.DataCriacao == dataCriacao
        && r.value.Nome == nome && r.value.Descricao == descricao && r.value.Ativo == ativo
        && r.value.Valid()
    {
      var err := Validate(nome, descricao);
      if err.Some? {
        return Failure(err.value);
      }
      var c := new Categoria.Init(id, dataCriacao, nome, descricao, ativo);
      return Success(c);
    }

    /** Sets Ativo and re-validates. Validity does not depend on Ativo, so an
        entity that was valid cannot fail here, and calling it on an entity
        that is already active changes nothing (idempotence). */
    method Ativar() returns (err: Option<ErrorKind>)
      modifies this`Ativo
      ensures Ativo
      ensures Nome == old(Nome) && Descricao == old(Descricao)
      ensures err == Validate(Nome, Descricao)
      ensures err.None? <==> Valid()
      ensures old(Valid()) ==> err.None?
      ensures old(Ativo) ==> unchanged(this)
    {
      Ativo := true;
      err := Validate(Nome, Descricao);
    }

    /** Clears Ativo and re-validates, with the same failure behaviour as Ativar. */
    method Inativar() returns (err: Option<ErrorKind>)
      modifies this`Ativo
      ensures !Ativo
      ensures Nome == old(Nome) && Descricao == old(Descricao)
      ensures err == Validate(Nome, Descricao)
      ensures err.None? <==> Valid()
      ensures old(Valid()) ==> err.None?
      ensures !old(Ativo) ==> unchanged(this)
    {
      Ativo := false;
      err := Validate(Nome, Descricao);
    }

    /** Replaces the name, replaces the description only when one is given
        (`descricao ?? Descricao`), then validates. Nothing is rolled back on
        failure. On an entity that was valid and with no new description, the
        error is the one the constructor reports for that name with any
        acceptable description. */
    method Update(nome: Option<string>, descricao: Option<string> := None) returns (err: Option<ErrorKind>)
      modifies this`Nome, this`Descricao
      ensures Nome == nome
      ensures Descricao == if descricao.Some? then descricao else old(Descricao)
      ensures Ativo == old(Ativo)
      ensures err == Validate(Nome, Descricao)
      ensures err.None? <==> Valid()
      ensures old(Valid()) && descricao.None? ==>
        forall d :: DescricaoOk(d) ==> err == Validate(nome, d)
    {
      Nome := nome;
      Descricao := if descricao.Some? then descricao else Descricao;
      err := Validate(Nome, Descricao);
      if old(Valid()) && descricao.None? {
        forall d | DescricaoOk(d)
          ensures err == Validate(nome, d)
        {
          ValidDescricaoIrrelevant(nome, Descricao, d);
        }
      }
    }
  }
}
