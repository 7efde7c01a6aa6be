/** The person endpoints: person search, one person, and a person's films. */
module Persons {
  import opened Wrappers
  import opened Http
  import opened Models
  import Seqs

  const ErrorNoItem: string := "No persons found"
  const ErrorItemNotFound: string := "The person is not found"
  const ErrorFilmsNotFound: string := "No films found for this person"

  /** The index name passed to the generic search and lookup by id. */
  const PersonKind: string := "Person"

  /** The person-service operations the handlers call, with their arguments.
      The films of a person are asked for by id alone, without pagination. */
  datatype PersonCall =
    | SearchObjects(query: Option<string>, kind: string, page: int, size: int)
    | GetById(id: string, kind: string)
    | GetFilmsById(id: string)

  /** GET /persons/search: every person found rebuilt, in the service's
      order, a null role included. */
  function PersonSearch(query: Option<string>, paging: PageParams, searchObjects: PersonCall -> seq<Person>)
    : (h: Handled<PersonCall, seq<Person>>)
    ensures h.calls == [SearchObjects(query, "Person", PageNumber(paging), PageSize(paging))]
    ensures h.result.Err? <==> searchObjects(h.calls[0]) == []
    ensures h.result.Err? ==> h.result.error == HttpError(404, "No persons found")
    ensures h.result.Ok? ==> h.result.value == searchObjects(h.calls[0])
  {
    var call := SearchObjects(query, PersonKind, PageNumber(paging), PageSize(paging));
    var persons := searchObjects(call);
    Seqs.MapIdentity(RebuildPerson, persons);
    Handled([call], ListOrNotFound(persons, RebuildPerson, ErrorNoItem))
  }

  /** GET /persons/{person_id} */
  function PersonDetails(personId: string, getById: PersonCall -> Option<Person>): (h: Handled<PersonCall, Person>)
    ensures h.calls == [GetById(personId, "Person")]
    ensures getById(h.calls[0]).None? ==> h.result == Err(HttpError(404, "The person is not found"))
    ensures getById(h.calls[0]).Some? ==> h.result == Ok(getById(h.calls[0]).value)
  {
    var call := GetById(personId, PersonKind);
    Handled([call], FoundOrNotFound(getById(call), RebuildPerson, ErrorItemNotFound))
  }

  /** GET /persons/{person_id}/film: the person's films, summarised. */
  function PersonFilms(personId: string, getFilmsById: PersonCall -> seq<Film>): (h: Handled<PersonCall, seq<FilmOut>>)
    ensures h.calls == [GetFilmsById(personId)]
    ensures h.result.Err? <==> getFilmsById(h.calls[0]) == []
    ensures h.result.Err? ==> h.result.error == HttpError(404, "No films found for this person")
    ensures h.result.Ok? ==> Summarises(h.result.value, getFilmsById(h.calls[0]))
  {
    var call := GetFilmsById(personId);
    Handled([call], ListOrNotFound(getFilmsById(call), Summary, ErrorFilmsNotFound))
  }

  /** Person search with no pagination parameters asks the service for page 1
      of size 50. */
  lemma SearchDefaults(query: Option<string>, searchObjects: PersonCall -> seq<Person>)
    ensures PersonSearch(query, PageParams(None, None), searchObjects).calls == [SearchObjects(query, "Person", 1, 50)]
  {
  }

  /** A person whose role is null is answered with a null role, and every
      other field unchanged. */
  lemma NullRoleKept(personId: string, getById: PersonCall -> Option<Person>)
    requires getById(GetById(personId, "Person")).Some?
    requires getById(GetById(personId, "Person")).value.role.None?
    ensures PersonDetails(personId, getById).result.Ok?
    ensures PersonDetails(personId, getById).result.value.role.None?
    ensures PersonDetails(personId, getById).result.value.filmIds == getById(GetById(personId, "Person")).value.filmIds
  {
  }
}
