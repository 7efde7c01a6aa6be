# Request-handler decision layer of a read-only film catalog API

This project models, in Dafny, the `api/v1` request handlers of a read-only
media-catalog API (films, genres, persons). Each handler takes validated query
parameters and calls one service operation. It then answers with an HTTP error
(a status and a fixed message) or a response. The response is either a
field-by-field projection of the service's objects or the object itself.

Each handler is a pure function. It takes its parameters and the service
operation it uses, given as an oracle (`FilmCall -> seq<Film>`,
`GenreCall -> Option<Genre>`, …). It returns
`Handled(calls, result)`: `calls` is the list of service calls the handler made,
and `result` is `Ok(response)` or `Err(HttpError(status, detail))`. This lets the
contracts say which arguments reach the service, and when the service is not
called at all. A sort value the films list rejects is the one case where the
service is not called.

Modules:

- `Wrappers`: `Option` (Python's `X | None`) and `Result`.
- `Seqs`: `Map`, the model of a list comprehension `[f(x) for x in xs]`.
- `Text`: `RemoveChar`, the model of `str.replace(c, '')`.
- `Http`: the HTTP error, the `Handled` trace, the pagination defaults (page 1,
  size 50), and the two response shapes: a list with a 404 when it is empty,
  and one item with a 404 when it is absent.
- `Models`: the film, genre and person documents, the film summary `FilmOut`
  (uuid, title, imdb_rating) and the projections onto it.
- `Films`, `Genres`, `Persons`: the ten endpoints, their error messages and
  their properties.

The films-list sort guard deletes every `-` from the sort value, not only a
leading one. The dash-free remainder is then checked against the one-element
whitelist `["imdb_rating"]`. So `"--imdb_rating"` and `"imdb_rating-"` pass the
guard. A sort made only of dashes is rejected, although an empty sort passes.
The handler's own documentation says only that a sort starting with `-` is
descending. The code deletes every dash, and the model follows the code.

## Model

| member | source | states |
|---|---|---|
| Text.RemoveChar | src/api/v1/films.py:109 | the result holds no dash, is no longer than the input, and holds only characters of the input |
| Text.RemoveCharCounts | src/api/v1/films.py:109 | only dashes are deleted: every other character keeps its count, and the length drops by exactly the number of dashes |
| Text.RemoveCharAppend | src/api/v1/films.py:109 | stripping distributes over concatenation, so the remaining characters keep their order |
| Text.RemoveCharFixed | src/api/v1/films.py:109 | a string is unchanged by stripping exactly when it holds no dash |
| Text.RemoveCharAnywhere | src/api/v1/films.py:109 | a dash inserted at any position is removed too, not only a leading one |
| Text.RemoveCharSurrounded | src/api/v1/films.py:109 | a dash-free word padded with any number of dashes on each side strips to the word |
| Seqs.Map | src/api/v1/films.py:72 | a list comprehension keeps length and order; element i is the projection of input element i |
| Http.PageNumber | src/api/v1/films.py:55 | an absent page number becomes 1; a given one is kept unchanged, with no clamping |
| Http.PageSize | src/api/v1/films.py:56 | an absent page size becomes 50; a given one is kept unchanged, with no clamping |
| Http.ListOrNotFound | src/api/v1/films.py:70-72 | 404 with the given message exactly when the service list is empty; otherwise every item projected, in order |
| Http.FoundOrNotFound | src/api/v1/films.py:83-86 | 404 with the given message exactly when the item is absent; otherwise the rebuilt item |
| Models.Summary | src/api/v1/films.py:46-49 | a film summary carries the film's uuid, title and imdb_rating |
| Models.Summaries | src/api/v1/films.py:72 | the summary list has the film list's length and order, with each film's uuid, title and rating |
| Models.SummarisesUnique | src/api/v1/films.py:114 | only one list summarises a given film list |
| Models.SummariesAppend | src/api/v1/films.py:138 | summarising a concatenation summarises each part in turn |
| Models.RebuildGenre | src/api/v1/genres.py:62 | rebuilding a genre field by field changes no field |
| Models.RebuildPerson | src/api/v1/persons.py:54 | rebuilding a person field by field changes no field, a null role included |
| Films.FilmSearch | src/api/v1/films.py:52-72 | calls search once with the query, "Film" and the page; 404 "No films found based on your request" exactly when the result is empty; otherwise its summaries |
| Films.FilmDetails | src/api/v1/films.py:75-86 | looks the id up in "Film"; 404 "The film is not found" when absent; otherwise the film itself, unchanged |
| Films.FilmsList | src/api/v1/films.py:89-114 | no service call and 400 "Wrong sort parameter" exactly when a non-empty sort does not strip to "imdb_rating"; otherwise one call with sort, filter and page unchanged, then 404 on an empty list and summaries otherwise |
| Films.SimilarFilms | src/api/v1/films.py:118-138 | calls the similar-films operation with the id and the page; 404 "No similar films found" exactly when the result is empty; otherwise its summaries |
| Films.WrongSort | src/api/v1/films.py:109 | an absent or empty sort is never wrong; a non-empty sort is wrong exactly when its dash-stripped form is not "imdb_rating", the one whitelisted value |
| Films.NoSortIsForwarded | src/api/v1/films.py:109-111 | an absent or empty sort passes the guard and reaches the service unchanged |
| Films.DashedImdbRatingStrips | src/api/v1/films.py:109 | "imdb_rating" with any dashes before and after strips to the whitelisted value |
| Films.DashedImdbRatingAccepted | src/api/v1/films.py:109-111 | "imdb_rating" with any dashes before and after passes the guard and is forwarded as given |
| Films.AscendingSortAccepted | src/api/v1/films.py:109-111 | "imdb_rating" passes the guard |
| Films.DescendingSortAccepted | src/api/v1/films.py:109-111 | "-imdb_rating" passes the guard |
| Films.DoubleDashSortAccepted | src/api/v1/films.py:109-111 | "--imdb_rating" passes the guard |
| Films.TrailingDashSortAccepted | src/api/v1/films.py:109-111 | "imdb_rating-" passes the guard |
| Films.DashPositionIrrelevant | src/api/v1/films.py:109 | inserting or removing one dash anywhere in a non-empty sort does not change whether it is rejected |
| Films.TitleRejected | src/api/v1/films.py:109-110 | "title" gets 400 "Wrong sort parameter" with no service call |
| Films.OnlyDashesRejected | src/api/v1/films.py:109-110 | a sort of one or more dashes only is rejected with 400 and no service call |
| Films.RejectedIgnoresService | src/api/v1/films.py:109-111 | a rejected request's answer is the same whatever the service would return |
| Films.ListNonEmptyAnswered | src/api/v1/films.py:111-114 | an accepted sort with a non-empty service result is answered with exactly the summaries of that result |
| Films.SearchDefaults | src/api/v1/films.py:54-69 | a search without pagination asks the service for page 1 of size 50 |
| Films.SimilarPaging | src/api/v1/films.py:121-135 | similar films default to page 1 of size 50 and forward given values unchanged |
| Genres.GenresList | src/api/v1/genres.py:29-48 | calls the genre list with the page; 404 "No genres found" exactly when empty; otherwise the service's genres, same length, order and fields |
| Genres.GenreDetails | src/api/v1/genres.py:51-62 | looks the id up in "Genre"; 404 "The genre is not found" when absent; otherwise the genre with its four fields unchanged |
| Genres.GenrePopularFilms | src/api/v1/genres.py:65-83 | calls the films-of-genre operation with the id and the page; 404 "No popular films for the genre" exactly when empty; otherwise the summaries in order |
| Genres.PagingForwarded | src/api/v1/genres.py:30-79 | both paginated genre endpoints default to page 1 of size 50 and forward given values unchanged |
| Genres.PopularOrderPreserved | src/api/v1/genres.py:79-83 | a popular-films result made of two parts is answered with the first part's summaries, then the second's |
| Persons.PersonSearch | src/api/v1/persons.py:27-40 | calls search with the query, "Person" and the page; 404 "No persons found" exactly when empty; otherwise the service's persons, same length, order and fields |
| Persons.PersonDetails | src/api/v1/persons.py:43-54 | looks the id up in "Person"; 404 "The person is not found" when absent; otherwise the person with its four fields unchanged |
| Persons.PersonFilms | src/api/v1/persons.py:57-69 | calls the films-of-person operation with the id only, no paging; 404 "No films found for this person" exactly when empty; otherwise the summaries in order |
| Persons.SearchDefaults | src/api/v1/persons.py:28-34 | a person search without pagination asks the service for page 1 of size 50 |
| Persons.NullRoleKept | src/api/v1/persons.py:50-54 | a person with a null role is answered with a null role and the same film ids |

## Left out

- The service layer (`services.film`, `services.genre`, `services.person`), the Redis cache and the Elasticsearch index are not part of this model. Each service operation is an oracle the handler receives as a parameter. No cache, TTL or pagination-window behaviour is assumed.
- FastAPI routing, query-alias parsing, dependency injection and async/await are framework and concurrency concerns. A handler's parameters are the already-parsed query values.
- Pydantic coercion is foreign library behaviour and is not modelled. This covers string-to-UUID conversion, the response-model conversion of the film returned by film details, the `description` default `''`, and orjson serialisation. Identifiers are plain strings passed through unchanged, as the handlers pass them.
- `imdb_rating` is a float in the source. Here it is an optional `real` that is only ever copied; float semantics are not modelled.
- The service's genre type is not part of this model, so the model gives it the four fields of the response `Genre` (src/api/v1/genres.py:22-26). The service's person type is the person document of src/models/person.py:12-21.
- Service oracles are total: every service call returns a value. An exception raised by an awaited service call, which reaches the client as a server error, is not modelled.
- The response constructors' conversion of a service `uuid` string into a UUID can fail on a string that is not a UUID, which also reaches the client as a server error. That failure path is not modelled; identifiers are copied as strings.
- `src/main.py` (application bootstrap, Redis pool, Elasticsearch client lifecycle) and `tests/functional/settings.py` (environment configuration) are I/O plumbing.
