/** The documents the services return and the film summary every film list
    is reduced to. */
module Models {
  import opened Wrappers
  import Seqs

  /** A genre as embedded in a film document. */
  datatype GenreInFilm = GenreInFilm(uuid: string, name: string)

  /** A person as embedded in a film document. */
  datatype PersonInFilm = PersonInFilm(uuid: string, fullName: string)

  /** A film document. The rating is an opaque optional number that is only
      ever copied. */
  datatype Film = Film(
    uuid: string,
    title: string,
    imdbRating: Option<real>,
    description: Option<string>,
    genre: seq<GenreInFilm>,
    directors: seq<PersonInFilm>,
    actors: seq<PersonInFilm>,
    writers: seq<PersonInFilm>)

  /** The role a person plays in the context of the current query. */
  datatype Role = Actor | Director | Writer

  /** A person document; `role` may be null. */
  datatype Person = Person(uuid: string, fullName: string, filmIds: seq<string>, role: Option<Role>)

  /** A genre as the genre service returns it and as the genre endpoints
      answer it. */
  datatype Genre = Genre(uuid: string, name: string, description: string, popularity: int)

  /** The film summary used in every list of films. */
  datatype FilmOut = FilmOut(uuid: string, title: string, imdbRating: Option<real>)

  /** Reduces a film to its summary. */
  function Summary(f: Film): (o: FilmOut)
    ensures o.uuid == f.uuid && o.title == f.title && o.imdbRating == f.imdbRating
  {
    FilmOut(f.uuid, f.title, f.imdbRating)
  }

  /** `s` is `films` summarised one by one: same length, same order, and each
      summary carries the uuid, title and rating of its film. */
  ghost predicate Summarises(s: seq<FilmOut>, films: seq<Film>)
  {
    && |s| == |films|
    && forall i :: 0 <= i < |films| ==>
         s[i].uuid == films[i].uuid && s[i].title == films[i].title && s[i].imdbRating == films[i].imdbRating
  }

  /** The summary list of a film list. */
  function Summaries(films: seq<Film>): (s: seq<FilmOut>)
    ensures Summarises(s, films)
  {
    Seqs.Map(Summary, films)
  }

  /** A summary list is determined by its films: the only list that
      summarises `films` is `Summaries(films)`. */
  lemma {:induction false} SummarisesUnique(s: seq<FilmOut>, films: seq<Film>)
    requires Summarises(s, films)
    ensures s == Summaries(films)
  {
    var t := Summaries(films);
    forall i | 0 <= i < |s|
      ensures s[i] == t[i]
    {
      assert t[i] == Summary(films[i]);
    }
  }

  /** Summarising a concatenation summarises each part in turn. */
  lemma SummariesAppend(a: seq<Film>, b: seq<Film>)
    ensures Summaries(a + b) == Summaries(a) + Summaries(b)
  {
    Seqs.MapAppend(Summary, a, b);
  }

  /** The genre response `Genre(uuid=…, name=…, description=…, popularity=…)`
      built field by field from a service genre. */
  function RebuildGenre(g: Genre): (r: Genre)
    ensures r == g
  {
    Genre(g.uuid, g.name, g.description, g.popularity)
  }

  /** The person response `Person(uuid=…, full_name=…, role=…, film_ids=…)`
      built field by field from a service person. */
  function RebuildPerson(p: Person): (r: Person)
    ensures r == p
  {
    Person(p.uuid, p.fullName, p.filmIds, p.role)
  }
}
