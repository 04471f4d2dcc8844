# PetCare — a Dafny model of the clinic back end and its browser client

PetCare is a small veterinary-clinic system. Its FastAPI back end keeps owners
(`donos`), their animals (`animais`), vaccines (`vacinas`), appointments
(`consultas`) and grooming services (`banho_tosa`) in SQLite. A browser
client shows them on a dashboard (`frontend/app.js`). The login and sign-up
pages (`auth/auth.js`) keep the session token in `localStorage`.

This project models the five routers, the two status/type normalisers and
the dashboard counts. It also models the client logic of the login page and
the dashboard:
- validation;
- the error messages;
- the `localStorage` updates;
- phone formatting and the input mask;
- the id caches and name look-ups;
- the dependent animal select;
- the booking-form gates;
- the label maps.

Layout, one module per file:

- `common.dfy` (`Common`): `Option`, `Result` (an error carries an HTTP status and a `detail` text) and `Campo` (a field of a partial update: absent or present).
- `text.dfy` (`Text`): the string built-ins the core relies on:
  - Python's `strip()`/`lower()`;
  - JavaScript's `trim()` and `toUpperCase()` on a character;
  - `replace(/\D/g, '')`, `parseInt` and `Number` on decimal text.
- `models.dfy` (`Models`): the row types and the `Database` class. Each table is a `map` from primary key to row, with a next-id counter per table.
- `schemas.dfy` (`Schemas`): the request payloads, the schema defaults and the partial-update payloads.
- `normalizacao.dfy` (`Normalizacao`): the lookup every normaliser performs, with its validity, idempotence and "depends only on the trimmed, lower-cased form" lemmas. `grafias.dfy` (`Grafias`) holds the per-spelling facts.
- `estatisticas.dfy` (`Estatisticas`): the per-status counts of the two dashboard endpoints.
- `donos.dfy`, `animais.dfy`, `vacinas.dfy`, `consultas.dfy`, `banho_tosa.dfy`: the routers. Each handler is a method on the `Database` that changes only the table it writes.
- `auth.dfy` (`Auth`): the login and sign-up page logic.
- `app.dfy` (`App`): the dashboard logic.

## Model

| member | source | states |
|---|---|---|
| Models.Database.constructor | models.py:6-82 | A fresh database has five empty tables and satisfies `Valid`: each row is stored under its own id, and every id in use is below the table's next id. |
| Models.LinhasContam | routers/donos.py:34-44 | Rows are told apart by their primary key, so a table lists exactly as many rows as it has keys. |
| DonosRouter.CriarDono | routers/donos.py:20-31 | Always succeeds: one new row under an id not used before, with the payload's name and phone; the other owners are unchanged and animals keep their owners. |
| DonosRouter.ListarDonos | routers/donos.py:34-44 | Every stored owner appears, only stored owners appear, and the listing has one entry per row. |
| DonosRouter.ObterDono | routers/donos.py:47-57 | Succeeds exactly when the id is stored and returns that row (whose id is the one asked for); otherwise 404 "Dono não encontrado". |
| DonosRouter.AtualizarDono | routers/donos.py:60-77 | On a missing id, 404 and nothing changes. Otherwise the `setattr` loop over both payload fields leaves the row equal to the payload under the same id, and only that row changes. |
| DonosRouter.DeletarDono | routers/donos.py:80-93 | On a missing id, 404 and nothing changes; otherwise exactly that owner is removed. Children are not touched: an animal of that owner keeps the deleted id, so the animal table is left pointing at a missing owner, where the source's ORM would store NULL. If no animal names that owner, referential integrity is kept. |
| AnimaisRouter.CriarAnimal | routers/animais.py:20-41 | 404 "Dono não encontrado" and nothing stored when the owner is missing; otherwise one new row with a fresh id and the payload's fields. Referential integrity is preserved. |
| AnimaisRouter.ListarAnimais | routers/animais.py:44-63 | Every stored animal once, nothing else, one entry per row. |
| AnimaisRouter.ObterAnimal | routers/animais.py:66-82 | Succeeds exactly when the id is stored and returns that row; otherwise 404 "Animal não encontrado". |
| AnimaisRouter.AtualizarAnimal | routers/animais.py:85-113 | The animal is checked before the new owner, and either missing gives its own 404 with nothing changed. Otherwise all four fields are replaced, the id is kept, only that row changes and referential integrity is preserved. |
| AnimaisRouter.DeletarAnimal | routers/animais.py:116-129 | On a missing id, 404 and nothing changes; otherwise exactly that animal is removed. Its vaccines, appointments and services keep the deleted id, where the source's ORM would store NULL. |
| VacinasRouter.CriarVacina | routers/vacinas.py:21-41 | 404 and nothing stored when the animal from the query string is missing; otherwise one new row with a fresh id, the payload's fields and that animal. |
| VacinasRouter.ListarVacinas | routers/vacinas.py:44-62 | Every stored vaccine once, nothing else, one entry per row. |
| VacinasRouter.ObterVacina | routers/vacinas.py:65-80 | Succeeds exactly when the id is stored and returns that row; otherwise 404 "Vacina não encontrada". |
| VacinasRouter.AtualizarVacina | routers/vacinas.py:83-104 | On a missing id, 404 and nothing changes. Otherwise name and date are replaced, while id and animal are kept; only that row changes. |
| VacinasRouter.DeletarVacina | routers/vacinas.py:107-120 | On a missing id, 404 and nothing changes; otherwise exactly that row is removed. |
| VacinasRouter.ListarVacinasPorAnimal | routers/vacinas.py:123-143 | 404 when the animal is missing; otherwise a vaccine is listed if and only if it is stored and belongs to that animal. |
| VacinasRouter.VacinaListadaSoNoSeuAnimal | routers/vacinas.py:123-143 | The per-animal listings split the vaccine table: a vaccine appears under its own animal and under no other. |
| Normalizacao.NormalizarValido | routers/banho_tosa.py:25-52 | With a well-formed table (default and entries valid, each valid value its own entry), the normaliser always yields a valid value. |
| Normalizacao.NormalizarIdempotente | routers/consultas.py:25-54 | Normalising an already normalised value changes nothing. |
| Normalizacao.NormalizarPelaForma | routers/banho_tosa.py:45-52 | With a table whose raw-case keys agree with their trimmed, lower-cased form, the raw-key lookup adds nothing: the result is the table entry of `strip().lower()` of the input, or the default. |
| BanhoTosaRouter.MapaStatusBemFormado | routers/banho_tosa.py:32-52 | The service-status table maps every accepted spelling to one of the four statuses, and the default "agendado" is one of them. |
| BanhoTosaRouter.MapaStatusCoerente | routers/banho_tosa.py:32-44 | Every raw-case spelling in the service-status table means the same as its trimmed, lower-cased form. |
| BanhoTosaRouter.NormalizarStatus | routers/banho_tosa.py:25-52 | `normalizar_status` always returns one of the four service statuses, and "agendado" for an empty value. |
| BanhoTosaRouter.NormalizarStatusPelaForma | routers/banho_tosa.py:25-52 | The status depends only on the trimmed, lower-cased input: a known spelling gives its entry, anything else gives "agendado". |
| BanhoTosaRouter.NormalizarStatusIdempotente | routers/banho_tosa.py:25-52 | Normalising a normalised service status changes nothing. |
| BanhoTosaRouter.MapaTipoBemFormado | routers/banho_tosa.py:58-83 | The service-type table maps every accepted spelling to one of the three types, and the default "banho" is one of them. |
| BanhoTosaRouter.MapaTipoCoerente | routers/banho_tosa.py:65-75 | Every raw-case spelling in the type table means the same as its trimmed, lower-cased form. |
| BanhoTosaRouter.NormalizarTipo | routers/banho_tosa.py:58-83 | `normalizar_tipo_servico` always returns one of the three types, and "banho" for an empty value. |
| BanhoTosaRouter.NormalizarTipoPelaForma | routers/banho_tosa.py:58-83 | The type depends only on the trimmed, lower-cased input. |
| BanhoTosaRouter.NormalizarTipoIdempotente | routers/banho_tosa.py:58-83 | Normalising a normalised type changes nothing. |
| BanhoTosaRouter.BanhoETosaPorExtenso | routers/banho_tosa.py:65-75 | "Banho e Tosa" and "banho e tosa" are both read as "banho_e_tosa". |
| BanhoTosaRouter.CriarServico | routers/banho_tosa.py:110-143 | The owner is checked first, then the animal, and each missing one gives its own 404 with nothing stored. When both exist the request succeeds: one new row with a fresh id, the normalised type and status and the payload's other fields. Canonical statuses and types stay canonical. |
| BanhoTosaRouter.StatusPadraoServico | schemas.py:189 | The schema default "agendado" for an omitted status is kept by the normaliser. |
| BanhoTosaRouter.CriarServicoSemStatus | routers/banho_tosa.py:110-143 | A create request without a status, with owner and animal both stored, succeeds and stores a fresh row with status "agendado" and the normalised type. |
| BanhoTosaRouter.Atualizado | routers/banho_tosa.py:179-190 | The update keeps id, owner and animal. An omitted status or type is kept; a supplied one comes out canonical. |
| BanhoTosaRouter.AplicarDadosAtualizacao | routers/banho_tosa.py:179-190 | Running the `setattr` loop over the normalised `exclude_unset` dictionary yields exactly the field-by-field update. |
| BanhoTosaRouter.AtualizarServico | routers/banho_tosa.py:171-195 | On a missing id, 404 and nothing changes. Otherwise the stored row becomes the field-by-field update of the old row and nothing else changes; canonical statuses and types stay canonical. |
| BanhoTosaRouter.RemoverServico | routers/banho_tosa.py:201-211 | On a missing id, 404 and nothing changes; otherwise exactly that row is removed. |
| BanhoTosaRouter.StatsDashboard | routers/banho_tosa.py:217-235 | The total is the row count, and each of the four buckets counts the rows whose status is exactly its value. The buckets never add up to more than the total. |
| BanhoTosaRouter.StatsDashboardCompletas | routers/banho_tosa.py:217-235 | When every stored status is canonical, the four buckets add up to the total. |
| ConsultasRouter.MapaStatusBemFormado | routers/consultas.py:25-54 | The appointment-status table maps every accepted spelling to one of the four statuses, and the default "agendada" is one of them. |
| ConsultasRouter.MapaStatusCoerente | routers/consultas.py:32-45 | Every raw-case spelling in the appointment-status table means the same as its trimmed, lower-cased form. |
| ConsultasRouter.NormalizarStatusConsulta | routers/consultas.py:25-54 | Always one of the four appointment statuses, and "agendada" for an empty value. |
| ConsultasRouter.NormalizarStatusConsultaPelaForma | routers/consultas.py:25-54 | The status depends only on the trimmed, lower-cased input: a known spelling gives its entry, anything else gives "agendada". |
| ConsultasRouter.NormalizarStatusConsultaIdempotente | routers/consultas.py:25-54 | Normalising a normalised appointment status changes nothing. |
| ConsultasRouter.CriarConsulta | routers/consultas.py:79-111 | The owner is checked first, then the animal, and each missing one gives its own 404 with nothing stored. When both exist the request succeeds: one new row with a fresh id, the normalised status and the payload's other fields. Canonical statuses stay canonical. |
| ConsultasRouter.StatusPadraoConsulta | schemas.py:145 | The schema default "agendada" for an omitted status is kept by the normaliser. |
| ConsultasRouter.CriarConsultaSemStatus | routers/consultas.py:79-111 | A create request without a status, with owner and animal both stored, succeeds and stores a fresh row with status "agendada". |
| ConsultasRouter.Atualizada | routers/consultas.py:143-155 | The update keeps id, owner and animal. An omitted status is kept; a supplied one comes out canonical. |
| ConsultasRouter.AplicarDadosAtualizacao | routers/consultas.py:148-155 | Running the `setattr` loop over the normalised `exclude_unset` dictionary yields exactly the field-by-field update. |
| ConsultasRouter.AtualizarConsulta | routers/consultas.py:139-160 | On a missing id, 404 and nothing changes. Otherwise the stored row becomes the field-by-field update and nothing else changes; canonical statuses stay canonical. |
| ConsultasRouter.DeletarConsulta | routers/consultas.py:166-176 | On a missing id, 404 and nothing changes; otherwise exactly that row is removed. |
| ConsultasRouter.StatsDashboard | routers/consultas.py:182-200 | The total is the row count, and each of the four buckets counts the rows whose status is exactly its value. The buckets never add up to more than the total. |
| ConsultasRouter.StatsDashboardCompletas | routers/consultas.py:182-200 | When every stored status is canonical, the four buckets add up to the total. |
| Estatisticas.GruposSomam | routers/consultas.py:188-192 | Four buckets of distinct statuses count no row twice. Together they count at most every row, and exactly every row when each status is one of the four. |
| Auth.PrimeiraArroba | auth/auth.js:60 | Finds the first '@' of the e-mail, or reports that there is none. |
| Auth.EmailValidoSeCasaPadrao | auth/auth.js:60 | The scanning check accepts an e-mail if and only if it matches `^[^\s@]+@[^\s@]+\.[^\s@]+$`: three non-empty runs without whitespace or '@', joined by '@' and '.'. |
| Auth.EmailValidoTemUmaArroba | auth/auth.js:60 | An accepted e-mail contains exactly one '@'. |
| Auth.ComprimentoJs | auth/auth.js:136 | A string's JavaScript `length` (UTF-16 units) lies between its code-point count and twice that. |
| Auth.ComprimentoJsBmp | auth/auth.js:136 | Without astral characters, the JavaScript length is the character count. |
| Auth.ValidarLogin | auth/auth.js:49-64 | The login form is sent if and only if the trimmed e-mail and the password are non-empty and the e-mail is valid. Empty fields give "preencha todos os campos"; a bad e-mail gives the e-mail message. |
| Auth.ValidarCadastro | auth/auth.js:124-153 | The sign-up form is sent if and only if the trimmed name has length ≥ 3, the trimmed e-mail is valid and the password has length ≥ 6. The first failing check gives the message, in source order: an empty field gives the fill-in message, then a short name, then an invalid e-mail, then a short password. A refusal carries one of these four messages. |
| Auth.LimitesDoCadastro | auth/auth.js:136-152 | The boundary cases are accepted: a three-character name and a six-character password. |
| Auth.NomeDeDoisCaracteresAstrais | auth/auth.js:136 | A name of two astral characters (two emoji) passes the ≥ 3 length check, because `length` counts UTF-16 units. |
| Auth.MensagemErroLogin | auth/auth.js:77-90 | After a failed login: 401 gives the credentials message, then 429 the rate-limit message, then the server's `detail` if non-empty, else the default. Never empty. |
| Auth.MensagemErroCadastro | auth/auth.js:166-173 | After a failed sign-up: a 400 whose `detail` mentions "email" gives the already-registered message; otherwise the `detail` if non-empty, else the default. Never empty. |
| Auth.Erro400SemEmail | auth/auth.js:169-173 | A 400 whose detail does not mention "email" shows the detail itself. |
| Auth.Erro400ComEmailMaiusculo | auth/auth.js:169 | The test is case-sensitive: "E-mail já cadastrado" is shown as is, not as the already-registered message. |
| Auth.LocalStorage.constructor | auth/auth.js:94-95 | The store starts with the given items. |
| Auth.LocalStorage.GetItem | auth/auth.js:269 | Returns the stored value exactly when the key is present. |
| Auth.LocalStorage.SetItem | auth/auth.js:94-95 | Sets one key and leaves every other item unchanged. |
| Auth.LocalStorage.RemoveItem | auth/auth.js:257-258 | Removes one key and leaves every other item unchanged. |
| Auth.Entrar | auth/auth.js:48-113 | Nothing is sent unless validation passes, and a refusal shows the validation message. On a 2xx answer the token and the trimmed e-mail are stored and nothing else changes; with a non-empty token, the page-load check then redirects from any login-page path. A non-2xx answer shows the failed-login message, and a network failure the connection message; both leave `localStorage` untouched. |
| Auth.Sair | auth/auth.js:255-279 | A confirmed logout removes exactly the token and the e-mail, so no token remains and the page-load check redirects from no path. A cancelled logout changes nothing. |
| Auth.ChaveRascunho | auth/auth.js:308 | The draft key is "cad" followed by the field id with its first letter upper-cased. |
| Auth.ChavesDosCampos | auth/auth.js:297-310 | The name and e-mail fields save under "cadNome" and "cadEmail", the keys the page reads back. |
| Auth.SalvarRascunho | auth/auth.js:307-309 | Typing into a sign-up field stores its value under the draft key and changes nothing else. |
| Auth.CarregarRascunhos | auth/auth.js:299-302 | A saved non-empty draft refills the field; otherwise the field keeps its value. |
| Auth.RascunhoIdaEVolta | auth/auth.js:297-310 | Saving drafts then reloading the page gives back the typed values, whenever they were non-empty. |
| App.FormatarTelefone | frontend/app.js:190-204 | 11 digits become "(DD) NNNNN-NNNN" and 10 digits "(DD) NNNN-NNNN"; an empty value and any other digit count are returned unchanged. |
| App.FormatarTelefonePreservaDigitos | frontend/app.js:190-204 | Formatting keeps the digits of a 10- or 11-digit number, in order. |
| App.FormatarTelefoneIdempotente | frontend/app.js:190-204 | Formatting a formatted number changes nothing. |
| App.DigitosDaMascara | frontend/app.js:210-227 | The input mask keeps the first min(n, 11) digits typed, in order, and no other digits. |
| App.MascaraIdempotente | frontend/app.js:210-227 | Masking a masked value changes nothing. |
| App.MascaraConcordaComFormatar | frontend/app.js:190-227 | For 11 digits the mask and `formatarTelefone` produce the same text. |
| App.CampoTelefone.AoDigitar | frontend/app.js:211-226 | After an `input` event the phone field holds the mask of what it held. |
| App.QuantosDoDono | frontend/app.js:389-393 | The number of cached animals of an owner never exceeds the number of cached animals. |
| App.PrimeiroComId | frontend/app.js:360 | `find` returns the first entry with the id, or nothing when no entry has it. |
| App.PrimeiroComIdUnico | frontend/app.js:360 | With distinct ids, `find` by an entry's own id returns that entry. |
| App.Caches.constructor | frontend/app.js:55-56 | The owner and animal caches start empty. |
| App.Caches.NomeDonoPorId | frontend/app.js:359-362 | When `parseInt` of the id matches a cached owner, the name of the first such owner; otherwise "ID … não encontrado". |
| App.Caches.NomeAnimalPorId | frontend/app.js:369-372 | When `parseInt` of the id matches a cached animal, the name of the first such animal; otherwise "ID … não encontrado". |
| App.NomeDonoPeloProprioId | frontend/app.js:359-362 | With distinct ids, looking an owner up by its own id in decimal gives its name. |
| App.NomeAnimalPeloProprioId | frontend/app.js:369-372 | With distinct ids, looking an animal up by its own id in decimal gives its name. |
| App.Caches.CarregarDonos | frontend/app.js:379-395 | The owner cache becomes the fetched list. Each owner's badge count is the number of cached animals whose owner is that owner. |
| App.Caches.CarregarAnimais | frontend/app.js:434-437 | The animal cache becomes the fetched list. |
| App.TotalAoAcrescentar | frontend/app.js:389-393 | Adding one animal raises the badge total by the number of listed owners with that animal's owner id. |
| App.DonosComIdNoMaximoUm | frontend/app.js:379-395 | With distinct owner ids, at most one listed owner has a given id. |
| App.TotalDosDonosNoMaximo | frontend/app.js:379-395 | With distinct owner ids, the badges together count no more animals than are cached. |
| App.TotalSemAnimais | frontend/app.js:379-395 | With no cached animals, every badge is 0. |
| App.SomaDosBadges | frontend/app.js:379-395 | The badge counts `CarregarDonos` returns add up to the per-owner total. |
| App.FiltrarPorDono | frontend/app.js:1047 | The filtered list is never longer than the cache. |
| App.FiltrarPorDonoPertence | frontend/app.js:1047 | An animal is offered if and only if it is cached and `Number` of the selected value equals its owner id (JavaScript loose `==`). |
| App.FiltrarPorDonoConcat | frontend/app.js:1047 | The filter keeps the cache's order. |
| App.FiltroConcordaComContagem | frontend/app.js:1047 | For an owner's own id in decimal, the select offers exactly as many animals as that owner's badge counts. |
| App.AnimaisDoDono | frontend/app.js:1035-1055 | No owner selected disables the animal select. Otherwise the options are exactly the cached animals of that owner. |
| App.SalvarConsulta | frontend/app.js:696-720 | The appointment is sent if and only if owner, animal, date and reason are all filled. It carries the form's values, null notes when empty, and the ids through `parseInt`. |
| App.SalvarServico | frontend/app.js:912-938 | The service is sent if and only if owner, animal, type and date are all filled. It carries the form's values, null notes when empty, no duration when empty and the ids through `parseInt`. |
| App.SelecoesViramIds | frontend/app.js:696-938 | When the selects hold ids written in decimal, both forms send exactly those ids. |
| App.RotuloOuValor | frontend/app.js:685-693 | `mapa[valor] \|\| valor`: a value without an entry is shown as it is, and one with a non-empty label shows the label. |
| App.StatusDeConsultaSemRotulo | frontend/app.js:685-693 | No stored appointment status is a key of the appointment label map. |
| App.StatusDeServicoSemRotulo | frontend/app.js:901-909 | No stored service status is a key of the service-status label map. |
| App.TipoSemRotulo | frontend/app.js:891-898 | No stored service type is a key of the type label map. |
| App.RotulosNaoAlcancamValoresGravados | frontend/app.js:685-909 | Every status and type the server can return is shown raw by the label formatters as written. |
| App.RotulosMaiusculos | frontend/app.js:685-909 | A value is shown other than as itself only if it is a key of the label map, that is, an upper-case enum name; and the upper-case names get their labels. |
| App.StatusDeConsultaComRotulo | frontend/app.js:685-693 | With the map keyed by stored values, every stored appointment status gets one of the labels, never itself. |
| App.StatusDeServicoComRotulo | frontend/app.js:901-909 | With the map keyed by stored values, every stored service status gets one of the labels, never itself. |
| App.TipoComRotulo | frontend/app.js:891-898 | With the map keyed by stored values, every stored type gets one of the labels, never itself. |
| App.RotulosAlcancamValoresGravados | frontend/app.js:685-909 | Keyed by stored values, the formatters label every status and type the server can return. |
| Text.ParseIntOfIntToString | frontend/app.js:360 | `parseInt` of an integer written in decimal gives back that integer. |
| Text.ToNumberOfIntToString | frontend/app.js:1047 | `Number` of an integer written in decimal gives back that integer. |

## Left out

- **Persistence:**
  - SQLite, SQLAlchemy sessions and commits are modelled as map updates.
  - Ids come from a counter that never reuses a value. SQLite may reuse the largest id after a delete.
  - Listing order (`query(...).all()`) is not modelled: listings are sets.
- **Response serialisation:**
  - `serializar_servico` and `serializar_consulta`, including `dono_nome`/`animal_nome` from the relationships, are not modelled.
  - `isoformat()` of dates is not modelled.
  - The handlers return the stored row instead.
  - `listar_consultas`, `obter_consulta`, `listar_servicos` and `obter_servico` only read and serialise, so they are not modelled separately. Their lookup is the same as `ObterDono`'s.
- **Dates and money:** dates, date-times and the integer price in cents are opaque values, so no calendar or currency arithmetic is modelled.
- **Explicit `null` in updates:**
  - A partial update that sends an explicit `null` for `data_hora` or `motivo` cannot be expressed: those update fields are either absent or carry a value. The database's NOT NULL failure is therefore not modelled.
  - `str(value)` on a non-string status is not modelled: the normalisers take text, and `None` is read as "".
- DonosRouter.DeletarDono: leaves the owner's animals, appointments and services holding the deleted `dono_id`, and states that the animal table then points at a missing owner.
  - The source sets those foreign keys to NULL: the relationships at models.py:11-13 declare no cascade, so on `db.delete` SQLAlchemy's default loads the children and nulls their foreign key.
  - An animal the source would return with `dono_id: null` (shown by the dashboard as "ID null não encontrado") keeps the old id in the model.
- AnimaisRouter.DeletarAnimal: leaves the animal's vaccines, appointments and services holding the deleted `animal_id`, where the source's ORM sets it to NULL for the same reason (models.py:23-25).
- **Case mapping:** Python's `lower()` and JavaScript's `toUpperCase()` are modelled for ASCII and Latin-1 letters only.
- **`parseInt` and `Number`:** modelled on decimal text with an optional sign and surrounding whitespace (`parseInt` stops at the first non-digit). Hexadecimal, exponents, `Infinity` and fractional text are not modelled.
- **Error details:** a `detail` that is a list (FastAPI's validation errors) is not modelled; it is always text or absent.
- **Label maps:** keys a JavaScript object inherits (such as `constructor`) are not modelled.
- **Login network errors:** a response body that fails to parse as JSON is folded into the network-failure branch.
- **Owner badges:** `contagemAnimais` is keyed by the owner id as a number. The JavaScript object's string keys are not modelled.
- **Sign-up success path:** on success the page shows a toast, confetti and a redirect on a timer. Only validation and the error messages are modelled.
- **Browser and server side effects:** the DOM, toasts, modals, confetti, the loading spinners, timers, `fetch` and the network are left out. A server answer is a parameter of the handler that awaits it.
- **Other code:** the JWT/`security.py` endpoints, `main.py` and the migration scripts are not part of this model.

## Findings

| source | as written | input that shows it | evidently intended | confidence | as-written member | corrected member |
|---|---|---|---|---|---|---|
| frontend/app.js:685-909 | The status and type label maps are keyed by the upper-case enum names ("AGENDADA", "BANHO_E_TOSA"). The routers store lower-case values ("agendada", "banho_e_tosa"), and `fix_enum_data.py` rewrites old upper-case rows to lower case. | A stored appointment with status "agendada" is shown as "agendada", not "Agendada". | Each stored status and type is shown with its label. | medium, not executed | App.RotulosNaoAlcancamValoresGravados | App.RotulosAlcancamValoresGravados |
