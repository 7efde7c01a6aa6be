/** The genre endpoints: the genre list, one genre, and a genre's popular
    films. */
module Genres {
  import opened Wrappers
  import opened Http
  import opened Models
  import Seqs

  const ErrorNoItem: string := "No genres found"
  const ErrorItemNotFound: string := "The genre is not found"
  const ErrorNoPopularFilms: string := "No popular films for the genre"

  /** The index name passed to the generic lookup by id. */
  const GenreKind: string := "Genre"

  /** The genre-service operations the handlers call, with their arguments. */
  datatype GenreCall =
    | GetGenres(page: int, size: int)
    | GetById(id: string, kind: string)
    | GetFilmsById(id: string, page: int, size: int)

  /** GET /genres/: every service genre rebuilt, in the service's order. */
  function GenresList(paging: PageParams, getGenres: GenreCall -> seq<Genre>): (h: Handled<GenreCall, seq<Genre>>)
    ensures h.calls == [GetGenres(PageNumber(paging), PageSize(paging))]
    ensures h.result.Err? <==> getGenres(h.calls[0]) == []
    ensures h.result.Err? ==> h.result.error == HttpError(404, "No genres found")
    ensures h.result.Ok? ==> h.result.value == getGenres(h.calls[0])
  {
    var call := GetGenres(PageNumber(paging), PageSize(paging));
    var genres := getGenres(call);
    Seqs.MapIdentity(RebuildGenre, genres);
    Handled([call], ListOrNotFound(genres, RebuildGenre, ErrorNoItem))
  }

  /** GET /genres/{genre_id} */
  function GenreDetails(genreId: string, getById: GenreCall -> Option<Genre>): (h: Handled<GenreCall, Genre>)
    ensures h.calls == [GetById(genreId, "Genre")]
    ensures getById(h.calls[0]).None? ==> h.result == Err(HttpError(404, "The genre is not found"))
    ensures getById(h.calls[0]).Some? ==> h.result == Ok(getById(h.calls[0]).value)
  {
    var call := GetById(genreId, GenreKind);
    Handled([call], FoundOrNotFound(getById(call), RebuildGenre, ErrorItemNotFound))
  }

  /** GET /genres/{genre_id}/popular: the films the service ranks for the
      genre, summarised. */
  function GenrePopularFilms(genreId: string, paging: PageParams, getFilmsById: GenreCall -> seq<Film>)
    : (h: Handled<GenreCall, seq<FilmOut>>)
    ensures h.calls == [GetFilmsById(genreId, PageNumber(paging), PageSize(paging))]
    ensures h.result.Err? <==> getFilmsById(h.calls[0]) == []
    ensures h.result.Err? ==> h.result.error == HttpError(404, "No popular films for the genre")
    ensures h.result.Ok? ==> Summarises(h.result.value, getFilmsById(h.calls[0]))
  {
    var call := GetFilmsById(genreId, PageNumber(paging), PageSize(paging));
    Handled([call], ListOrNotFound(getFilmsById(call), Summary, ErrorNoPopularFilms))
  }

  /** Both paginated genre endpoints ask the service for page 1 of size 50
      when no pagination is given, and forward given values unchanged. */
  lemma PagingForwarded(genreId: string, page: int, size: int, getGenres: GenreCall -> seq<Genre>, getFilmsById: GenreCall -> seq<Film>)
    ensures GenresList(PageParams(None, None), getGenres).calls == [GetGenres(1, 50)]
    ensures GenrePopularFilms(genreId, PageParams(None, None), getFilmsById).calls == [GetFilmsById(genreId, 1, 50)]
    ensures GenresList(PageParams(Some(page), Some(size)), getGenres).calls == [GetGenres(page, size)]
    ensures GenrePopularFilms(genreId, PageParams(Some(page), Some(size)), getFilmsById).calls
         == [GetFilmsById(genreId, page, size)]
  {
  }

  /** The popular-films response of a non-empty result is exactly its summary
      list, so a result that is a concatenation is answered part by part. */
  lemma {:induction false} PopularOrderPreserved(genreId: string, paging: PageParams, getFilmsById: GenreCall -> seq<Film>, a: seq<Film>, b: seq<Film>)
    requires getFilmsById(GetFilmsById(genreId, PageNumber(paging), PageSize(paging))) == a + b
    requires a + b != []
    ensures GenrePopularFilms(genreId, paging, getFilmsById).result == Ok(Summaries(a) + Summaries(b))
  {
    var h := GenrePopularFilms(genreId, paging, getFilmsById);
    SummarisesUnique(h.result.value, a + b);
    SummariesAppend(a, b);
  }
}
