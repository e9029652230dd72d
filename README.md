# Categoria: a verified model of the catalog's category entity

This project models `Categoria`, the self-validating domain entity of the
Codeflix catalog: a category with an identifier (`Id`), a name (`Nome`), a
description (`Descricao`), an active flag (`Ativo`) and a creation time
(`DataCriacao`). The constructor and the mutators `Ativar`, `Inativar` and
`Update` assign fields and then run `Validate`, which checks a fixed, ordered
list of rules on the name and the description and raises on the first one
that fails.

Layout:

- `Wrappers.dfy` — `Option` (a nullable reference) and `Result` (a value or
  the error raised instead).
- `Validation.dfy` — the pure part: the error kinds (one per check, standing
  for its fixed message), .NET's `char.IsWhiteSpace` and
  `string.IsNullOrWhiteSpace`, the validity predicate `IsValid`, each check's
  condition `Violates`, the check order `RuleOrder`, a reference "first
  violated check" scan `FirstViolated`, the early-exit chain `Validate`, and
  lemmas about them.
- `Categoria.dfy` — the entity as a class. `Id` and `DataCriacao` are `const`
  fields, so nothing after construction can write them; `Nome`, `Descricao`
  and `Ativo` are mutable fields. Each mutator's `modifies` clause names
  exactly the fields it writes. Exceptions become a returned error: the
  constructor is `Create`, returning a `Result`; the mutators return an
  `Option<ErrorKind>` after their writes are committed, which is the source's
  no-rollback behaviour.
- `Scenarios.dfy` — client methods following the unit tests: what a caller
  can conclude from the contracts alone.

`Categoria` does not inherit from `Entity`
(`src/Fc.Codeflix.Core.Catalogo.Domain/Entities/Categoria.cs:10`); the model
follows the code.

## Model

| member | source | states |
|---|---|---|
| `Validation.Validate` | src/Fc.Codeflix.Core.Catalogo.Domain/Entities/Categoria.cs:48-64 | validation passes exactly when the name is non-null, not all white space, longer than 3 and at most 255 characters and the description is non-null and at most 10000 characters; any error it reports is a check the state really violates |
| `Validation.FirstViolated` | src/Fc.Codeflix.Core.Catalogo.Domain/Entities/Categoria.cs:50-63 | reference meaning of a chain of checks: no error exactly when no check in the list is violated; otherwise the reported check is violated and every check before it in the list passes |
| `Validation.ValidateReportsFirstViolation` | src/Fc.Codeflix.Core.Catalogo.Domain/Entities/Categoria.cs:50-63 | the error `Validate` reports is the first violated check in the order blank name, name at most 3, name over 255, null description, description over 10000 |
| `Validation.ErrorOrder` | src/Fc.Codeflix.Core.Catalogo.Domain/Entities/Categoria.cs:50-63 | for every error kind k: `Validate` reports k if and only if k's condition holds and every check that runs before k passes |
| `Validation.BlankNomeReportedFirst` | src/Fc.Codeflix.Core.Catalogo.Domain/Entities/Categoria.cs:50-51 | the blank-name error is reported if and only if the name is null, empty or white space only, so a white-space name never gets a length error |
| `Validation.NomeLengthBoundaries` | src/Fc.Codeflix.Core.Catalogo.Domain/Entities/Categoria.cs:53-57 | for a non-blank name and an acceptable description: too short if and only if length at most 3 (3 itself rejected), too long if and only if over 255, valid if and only if 3 < length <= 255 |
| `Validation.DescricaoLengthBoundary` | src/Fc.Codeflix.Core.Catalogo.Domain/Entities/Categoria.cs:62-63 | for an acceptable name and a present description: rejected as too long if and only if over 10000 characters, valid if and only if at most 10000 |
| `Validation.NomeErrorsIgnoreDescricao` | src/Fc.Codeflix.Core.Catalogo.Domain/Entities/Categoria.cs:50-60 | when the name is unacceptable the error is one of the three name errors and is the same for every description |
| `Validation.ValidDescricaoIrrelevant` | src/Fc.Codeflix.Core.Catalogo.Domain/Entities/Categoria.cs:50-64 | with any acceptable description the verdict depends only on the name, and is success exactly when the name is acceptable |
| `Validation.Nome256Rejected` | tests/Fc.Codeflix.Core.Catalogo.UnitTests/Domain/Entities/Categoria/CategoriaTests.cs:113-123 | a name of 256 letters is rejected as longer than 255, whatever the description |
| `Validation.Descricao10001Rejected` | tests/Fc.Codeflix.Core.Catalogo.UnitTests/Domain/Entities/Categoria/CategoriaTests.cs:125-135 | with an acceptable name, a description of 10001 letters is rejected as longer than 10000 |
| `Validation.ShortPrefixRejected` | tests/Fc.Codeflix.Core.Catalogo.UnitTests/Domain/Entities/Categoria/CategoriaTests.cs:215-227 | the 1- and 2-character prefixes of any name that does not start with white space are rejected as shorter than the minimum, whatever the description |
| `Entities.Categoria.Init` | src/Fc.Codeflix.Core.Catalogo.Domain/Entities/Categoria.cs:14-18 | for a name and description that pass validation, the constructor's field assignments store exactly the given id, time, name, description and flag; an object that fails validation is never handed out |
| `Entities.Categoria.Create` | src/Fc.Codeflix.Core.Catalogo.Domain/Entities/Categoria.cs:12-21 | construction succeeds if and only if the name and description are valid; on failure it yields the error `Validate` reports and no object; on success a fresh, valid object holding exactly the given values, `Ativo` defaulting to true |
| `Entities.Categoria.Ativar` | src/Fc.Codeflix.Core.Catalogo.Domain/Entities/Categoria.cs:29-33 | sets `Ativo` and writes nothing else; the error is the validation verdict of the unchanged name and description, so a valid entity cannot fail; on an active entity nothing changes (idempotent) |
| `Entities.Categoria.Inativar` | src/Fc.Codeflix.Core.Catalogo.Domain/Entities/Categoria.cs:35-39 | clears `Ativo` and writes nothing else; same failure behaviour as `Ativar` |
| `Entities.Categoria.Update` | src/Fc.Codeflix.Core.Catalogo.Domain/Entities/Categoria.cs:41-46 | always replaces the name; replaces the description only when one is given; leaves `Ativo` alone; the error is the validation verdict of the new state and the writes stay even when it fails; from a valid state without a new description the error is the one construction gives that name |
| `Scenarios.CreateWithBlankNome` | tests/Fc.Codeflix.Core.Catalogo.UnitTests/Domain/Entities/Categoria/CategoriaTests.cs:75-86 | an empty, null or white-space name makes construction fail with the blank-name error |
| `Scenarios.CreateDefaultsToActive` | tests/Fc.Codeflix.Core.Catalogo.UnitTests/Domain/Entities/Categoria/CategoriaTests.cs:25-46 | valid construction without a flag stores the given values and is active |
| `Scenarios.InativarThenAtivarTwice` | tests/Fc.Codeflix.Core.Catalogo.UnitTests/Domain/Entities/Categoria/CategoriaTests.cs:137-160 | on a valid category, deactivating and then activating twice never fails, ends active and leaves name and description untouched |
| `Scenarios.UpdateWithShortNomeKeepsIt` | tests/Fc.Codeflix.Core.Catalogo.UnitTests/Domain/Entities/Categoria/CategoriaTests.cs:203-213 | updating a valid category to a non-blank name of at most 3 characters fails with the too-short error and the short name stays (no rollback) |

## Left out

- `Guid.NewGuid()` and `DateTime.Now` are not modelled: the fresh identifier and the current time are parameters of `Create`. The tests' checks that the id is not the default Guid and that the creation time lies between two clock readings cannot be stated.
- The message texts of `EntityValidationException` are not modelled: each check's message is one `ErrorKind` case, and the exception is a returned error.
- `Length` is the number of characters of a Dafny string (Unicode scalar values); .NET counts UTF-16 code units, so a name containing characters outside the Basic Multilingual Plane is shorter here than in .NET.
- `IsWhiteSpace` lists the characters .NET's `char.IsWhiteSpace` accepts under current Unicode versions; differences between Unicode versions are not modelled.
- `src/Fc.Codeflix.Core.Catalogo.Domain/SeedWork/Entity.cs` is not modelled: it only assigns a fresh Guid, and `Categoria` does not inherit from it.
- The test fixtures, which generate random data with the Bogus library, are not part of this model.
- The private setters of `Nome`, `Descricao` and `Ativo` are not modelled: Dafny has no private fields without export sets, so a client of the class could assign these fields directly; only the methods above do so in this model.
