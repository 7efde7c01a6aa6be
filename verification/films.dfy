/** The film endpoints: search, details, the sorted/filtered list and similar
    films. Each handler receives the film-service operation it uses as an
    oracle and reports the calls it made to it. */
module Films {
  import opened Wrappers
  import opened Http
  import opened Models
  import opened Text

  const ErrorNoItemForRequest: string := "No films found based on your request"
  const ErrorItemNotFound: string := "The film is not found"
  const ErrorNoSimilarFilm: string := "No similar films found"
  const ErrorWrongSortParameter: string := "Wrong sort parameter"

  /** The index name the film handlers pass to the generic service operations. */
  const FilmKind: string := "Film"

  /** The sort values accepted once every '-' is stripped. */
  const SortWhitelist: seq<string> := ["imdb_rating"]

  /** The film-service operations the handlers call, with their arguments. */
  datatype FilmCall =
    | SearchObjects(query: Option<string>, kind: string, page: int, size: int)
    | GetById(id: string, kind: string)
    | GetAllFilms(sort: Option<string>, filter: Option<string>, page: int, size: int)
    | GetSimilarFilms(id: string, page: int, size: int)

  /** The list endpoint's guard: a present, non-empty sort whose dash-stripped
      form is not whitelisted. With a one-element whitelist this means the
      stripped form differs from "imdb_rating"; an absent or empty sort is
      never wrong. */
  function WrongSort(sort: Option<string>): (wrong: bool)
    ensures sort.None? || |sort.value| == 0 ==> !wrong
    ensures sort.Some? && |sort.value| > 0 ==> (wrong <==> RemoveChar(sort.value, '-') != SortWhitelist[0])
  {
    sort.Some? && |sort.value| > 0 && RemoveChar(sort.value, '-') !in SortWhitelist
  }

  /** GET /films/search */
  function FilmSearch(query: Option<string>, paging: PageParams, searchObjects: FilmCall -> seq<Film>)
    : (h: Handled<FilmCall, seq<FilmOut>>)
    ensures h.calls == [SearchObjects(query, "Film", PageNumber(paging), PageSize(paging))]
    ensures h.result.Err? <==> searchObjects(h.calls[0]) == []
    ensures h.result.Err? ==> h.result.error == HttpError(404, "No films found based on your request")
    ensures h.result.Ok? ==> Summarises(h.result.value, searchObjects(h.calls[0]))
  {
    var call := SearchObjects(query, FilmKind, PageNumber(paging), PageSize(paging));
    Handled([call], ListOrNotFound(searchObjects(call), Summary, ErrorNoItemForRequest))
  }

  /** GET /films/{film_id}: the film document itself, unchanged. */
  function FilmDetails(filmId: string, getById: FilmCall -> Option<Film>): (h: Handled<FilmCall, Film>)
    ensures h.calls == [GetById(filmId, "Film")]
    ensures getById(h.calls[0]).None? ==> h.result == Err(HttpError(404, "The film is not found"))
    ensures getById(h.calls[0]).Some? ==> h.result == Ok(getById(h.calls[0]).value)
  {
    var call := GetById(filmId, FilmKind);
    Handled([call], FoundOrNotFound(getById(call), (f: Film) => f, ErrorItemNotFound))
  }

  /** GET /films/: the sort guard runs first; only a request that passes it
      reaches the service. */
  function FilmsList(sort: Option<string>, filter: Option<string>, paging: PageParams, getAllFilms: FilmCall -> seq<Film>)
    : (h: Handled<FilmCall, seq<FilmOut>>)
    ensures h.calls == [] <==> sort.Some? && |sort.value| > 0 && RemoveChar(sort.value, '-') != SortWhitelist[0]
    ensures h.calls == [] ==> h.result == Err(HttpError(400, "Wrong sort parameter"))
    ensures h.calls != [] ==> h.calls == [GetAllFilms(sort, filter, PageNumber(paging), PageSize(paging))]
    ensures h.calls != [] ==> (h.result.Err? <==> getAllFilms(h.calls[0]) == [])
    ensures h.calls != [] && h.result.Err? ==> h.result.error == HttpError(404, "No films found based on your request")
    ensures h.calls != [] && h.result.Ok? ==> Summarises(h.result.value, getAllFilms(h.calls[0]))
  {
    if WrongSort(sort) then
      Handled([], Err(HttpError(StatusBadRequest, ErrorWrongSortParameter)))
    else
      var call := GetAllFilms(sort, filter, PageNumber(paging), PageSize(paging));
      Handled([call], ListOrNotFound(getAllFilms(call), Summary, ErrorNoItemForRequest))
  }

  /** GET /films/{film_id}/similar */
  function SimilarFilms(filmId: string, paging: PageParams, getSimilarFilms: FilmCall -> seq<Film>)
    : (h: Handled<FilmCall, seq<FilmOut>>)
    ensures h.calls == [GetSimilarFilms(filmId, PageNumber(paging), PageSize(paging))]
    ensures h.result.Err? <==> getSimilarFilms(h.calls[0]) == []
    ensures h.result.Err? ==> h.result.error == HttpError(404, "No similar films found")
    ensures h.result.Ok? ==> Summarises(h.result.value, getSimilarFilms(h.calls[0]))
  {
    var call := GetSimilarFilms(filmId, PageNumber(paging), PageSize(paging));
    Handled([call], ListOrNotFound(getSimilarFilms(call), Summary, ErrorNoSimilarFilm))
  }

  // ---------------------------------------------------------------------------
  // The sort guard

  lemma ImdbRatingHasNoDash()
    ensures '-' !in SortWhitelist[0]
  {
    var w := SortWhitelist[0];
    forall i | 0 <= i < |w|
      ensures w[i] != '-'
    {
    }
  }

  /** An absent or empty sort passes the guard and is forwarded to the
      service exactly as given. */
  lemma {:induction false} NoSortIsForwarded(sort: Option<string>, filter: Option<string>, paging: PageParams, getAllFilms: FilmCall -> seq<Film>)
    requires sort.None? || sort == Some([])
    ensures FilmsList(sort, filter, paging, getAllFilms).calls
         == [GetAllFilms(sort, filter, PageNumber(paging), PageSize(paging))]
  {
  }

  /** Stripping "imdb_rating" surrounded by dashes gives "imdb_rating". */
  lemma DashedImdbRatingStrips(before: nat, after: nat)
    ensures RemoveChar(Repeat('-', before) + SortWhitelist[0] + Repeat('-', after), '-') == SortWhitelist[0]
  {
    ImdbRatingHasNoDash();
    RemoveCharSurrounded(SortWhitelist[0], '-', before, after);
  }

  /** A sort that is "imdb_rating" surrounded by any number of dashes on
      either side passes the guard and is forwarded unchanged; this covers
      "imdb_rating", "-imdb_rating", "--imdb_rating" and "imdb_rating-". */
  lemma DashedImdbRatingAccepted(before: nat, after: nat, filter: Option<string>, paging: PageParams, getAllFilms: FilmCall -> seq<Film>)
    ensures var s := Repeat('-', before) + SortWhitelist[0] + Repeat('-', after);
      FilmsList(Some(s), filter, paging, getAllFilms).calls
        == [GetAllFilms(Some(s), filter, PageNumber(paging), PageSize(paging))]
  {
    DashedImdbRatingStrips(before, after);
    assert !WrongSort(Some(Repeat('-', before) + SortWhitelist[0] + Repeat('-', after)));
  }

  /** "-imdb_rating" (descending order) passes the guard. */
  lemma DescendingSortAccepted(filter: Option<string>, paging: PageParams, getAllFilms: FilmCall -> seq<Film>)
    ensures FilmsList(Some("-imdb_rating"), filter, paging, getAllFilms).calls
         == [GetAllFilms(Some("-imdb_rating"), filter, PageNumber(paging), PageSize(paging))]
  {
    assert Repeat('-', 1) + "imdb_rating" + Repeat('-', 0) == "-imdb_rating";
    DashedImdbRatingAccepted(1, 0, filter, paging, getAllFilms);
  }

  /** "imdb_rating" (ascending order) passes the guard. */
  lemma AscendingSortAccepted(filter: Option<string>, paging: PageParams, getAllFilms: FilmCall -> seq<Film>)
    ensures FilmsList(Some("imdb_rating"), filter, paging, getAllFilms).calls
         == [GetAllFilms(Some("imdb_rating"), filter, PageNumber(paging), PageSize(paging))]
  {
    assert Repeat('-', 0) + "imdb_rating" + Repeat('-', 0) == "imdb_rating";
    DashedImdbRatingAccepted(0, 0, filter, paging, getAllFilms);
  }

  /** "--imdb_rating" passes the guard too: every dash is stripped, not only a
      leading one. */
  lemma DoubleDashSortAccepted(filter: Option<string>, paging: PageParams, getAllFilms: FilmCall -> seq<Film>)
    ensures FilmsList(Some("--imdb_rating"), filter, paging, getAllFilms).calls
         == [GetAllFilms(Some("--imdb_rating"), filter, PageNumber(paging), PageSize(paging))]
  {
    assert Repeat('-', 2) == "--";
    assert Repeat('-', 2) + "imdb_rating" + Repeat('-', 0) == "--imdb_rating";
    DashedImdbRatingAccepted(2, 0, filter, paging, getAllFilms);
  }

  /** "imdb_rating-" passes the guard too: a trailing dash is stripped as well. */
  lemma TrailingDashSortAccepted(filter: Option<string>, paging: PageParams, getAllFilms: FilmCall -> seq<Film>)
    ensures FilmsList(Some("imdb_rating-"), filter, paging, getAllFilms).calls
         == [GetAllFilms(Some("imdb_rating-"), filter, PageNumber(paging), PageSize(paging))]
  {
    assert Repeat('-', 0) + "imdb_rating" + Repeat('-', 1) == "imdb_rating-";
    DashedImdbRatingAccepted(0, 1, filter, paging, getAllFilms);
  }

  /** Acceptance does not depend on where the dashes stand: inserting a dash
      anywhere into a non-empty accepted sort keeps it accepted, and deleting
      one from an accepted sort keeps it accepted. */
  lemma DashPositionIrrelevant(a: string, b: string)
    ensures |a + b| > 0 ==> (WrongSort(Some(a + "-" + b)) <==> WrongSort(Some(a + b)))
  {
    RemoveCharAnywhere(a, b, '-');
    assert a + "-" + b == a + ['-'] + b;
  }

  /** "title" is rejected with 400 and the service is never consulted. */
  lemma TitleRejected(filter: Option<string>, paging: PageParams, getAllFilms: FilmCall -> seq<Film>)
    ensures FilmsList(Some("title"), filter, paging, getAllFilms)
         == Handled([], Err(HttpError(400, "Wrong sort parameter")))
  {
    RemoveCharFixed("title", '-');
  }

  /** A sort made only of dashes is rejected, although the empty sort is
      accepted: it is non-empty, and stripping leaves "" which is not
      whitelisted. */
  lemma {:induction false} OnlyDashesRejected(n: nat, filter: Option<string>, paging: PageParams, getAllFilms: FilmCall -> seq<Film>)
    requires n > 0
    ensures FilmsList(Some(Repeat('-', n)), filter, paging, getAllFilms)
         == Handled([], Err(HttpError(400, "Wrong sort parameter")))
  {
    RemoveCharRepeat('-', n);
  }

  /** A rejected request's outcome does not depend on the service at all. */
  lemma {:induction false} RejectedIgnoresService(sort: Option<string>, filter: Option<string>, paging: PageParams, s1: FilmCall -> seq<Film>, s2: FilmCall -> seq<Film>)
    requires FilmsList(sort, filter, paging, s1).calls == []
    ensures FilmsList(sort, filter, paging, s2) == FilmsList(sort, filter, paging, s1)
  {
  }

  // ---------------------------------------------------------------------------
  // Responses

  /** A non-empty service result is never turned into an error, and the
      response is exactly its summary list. */
  lemma {:induction false} ListNonEmptyAnswered(sort: Option<string>, filter: Option<string>, paging: PageParams, getAllFilms: FilmCall -> seq<Film>)
    requires !WrongSort(sort)
    requires getAllFilms(GetAllFilms(sort, filter, PageNumber(paging), PageSize(paging))) != []
    ensures FilmsList(sort, filter, paging, getAllFilms).result
         == Ok(Summaries(getAllFilms(GetAllFilms(sort, filter, PageNumber(paging), PageSize(paging)))))
  {
    var h := FilmsList(sort, filter, paging, getAllFilms);
    SummarisesUnique(h.result.value, getAllFilms(h.calls[0]));
  }

  /** Search with no pagination parameters asks the service for page 1 of
      size 50. */
  lemma SearchDefaults(query: Option<string>, searchObjects: FilmCall -> seq<Film>)
    ensures FilmSearch(query, PageParams(None, None), searchObjects).calls == [SearchObjects(query, "Film", 1, 50)]
  {
  }

  /** Similar films with no pagination parameters asks the service for page 1
      of size 50; given values are forwarded unchanged. */
  lemma SimilarPaging(filmId: string, page: int, size: int, getSimilarFilms: FilmCall -> seq<Film>)
    ensures SimilarFilms(filmId, PageParams(None, None), getSimilarFilms).calls == [GetSimilarFilms(filmId, 1, 50)]
    ensures SimilarFilms(filmId, PageParams(Some(page), Some(size)), getSimilarFilms).calls
         == [GetSimilarFilms(filmId, page, size)]
  {
  }
}
