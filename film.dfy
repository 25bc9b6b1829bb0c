/**
 * The film handlers of internal/handlers/film.go that decide something:
 * `createFilm`, which validates a request before handing a new film to the
 * service, and `updateFilm`, which hands any decodable film over unchecked.
 */
module Films {
  import opened GoStrings
  import opened Http

  /** entities.ActorEntity. */
  datatype Actor = Actor(id: string, name: string, gender: string, birthday: Instant)

  /** entities.FilmEntity: Title and Description are Go strings, held as their UTF-8 bytes. */
  datatype Film = Film(id: string, title: Bytes, description: Bytes, releaseDate: Instant, rating: real, actors: seq<Actor>)

  /** The body of a create request (CreateFilmRequest). */
  datatype CreateFilmRequest = CreateFilmRequest(title: Bytes, description: Bytes, releaseDate: Instant, rating: real, actors: seq<Actor>)

  /** The two FilmService calls these handlers make; their implementation is not part of this model. */
  datatype FilmService = FilmService(
    createFilm: Film -> Option<GoError>,
    updateFilm: (string, Film) -> Option<GoError>)

  datatype FilmCall = CreateFilmCall(film: Film) | UpdateFilmCall(id: string, film: Film)

  const MaxTitleLength := 150
  const MaxDescriptionLength := 1000
  const MinRating := 0.0
  const MaxRating := 10.0

  const InvalidTitle := "invalid name length"
  const InvalidDescription := "invalid description length"
  const InvalidRating := "invalid rating value"

  /** A title of 1 to 150 bytes. */
  predicate TitleOk(req: CreateFilmRequest) { 0 < |req.title| <= MaxTitleLength }

  /** A description of at most 1000 bytes, the empty one included. */
  predicate DescriptionOk(req: CreateFilmRequest) { |req.description| <= MaxDescriptionLength }

  /** A rating between 0 and 10, both included. */
  predicate RatingOk(req: CreateFilmRequest) { MinRating <= req.rating <= MaxRating }

  /**
   * The checks of createFilm, in order: the first that fails names the
   * rejection; None when all three pass.
   */
  function FirstFailedCheck(req: CreateFilmRequest): (failure: Option<string>)
    ensures failure == None <==> TitleOk(req) && DescriptionOk(req) && RatingOk(req)
    ensures !TitleOk(req) ==> failure == Some(InvalidTitle)
    ensures TitleOk(req) && !DescriptionOk(req) ==> failure == Some(InvalidDescription)
    ensures TitleOk(req) && DescriptionOk(req) && !RatingOk(req) ==> failure == Some(InvalidRating)
  {
    if |req.title| == 0 || |req.title| > MaxTitleLength then Some(InvalidTitle)
    else if |req.description| > MaxDescriptionLength then Some(InvalidDescription)
    else if req.rating < MinRating || req.rating > MaxRating then Some(InvalidRating)
    else None
  }

  /** The entity createFilm builds: every field copied from the request, the ID left empty. */
  function FilmOf(req: CreateFilmRequest): (f: Film)
    ensures f.id == ""
    ensures f.title == req.title && f.description == req.description
    ensures f.releaseDate == req.releaseDate && f.rating == req.rating && f.actors == req.actors
  {
    Film("", req.title, req.description, req.releaseDate, req.rating, req.actors)
  }

  /**
   * `createFilm`: 400 when the body does not decode or a check fails; the
   * service is called, with the film built from the request, only when all
   * three checks pass; its error gives 500, its success 201.
   */
  function CreateFilm(svc: FilmService, body: Result<CreateFilmRequest>): (r: Response<FilmCall>)
    ensures body.Err? ==>
      r == Response(StatusBadRequest, ErrorText("failed to decode JSON: " + body.error.text), None, [])
    ensures r.calls != [] <==> body.Ok? && TitleOk(body.value) && DescriptionOk(body.value) && RatingOk(body.value)
    ensures r.calls != [] ==> r.calls == [CreateFilmCall(FilmOf(body.value))]
    ensures body.Ok? && FirstFailedCheck(body.value).Some? ==>
      r == Response(StatusBadRequest, ErrorText(FirstFailedCheck(body.value).value), None, [])
    ensures r.status == StatusCreated <==> r.calls != [] && svc.createFilm(FilmOf(body.value)) == None
    ensures r.status == StatusCreated ==> r.body == MessageJson("film is successfully created")
    ensures r.calls != [] && svc.createFilm(FilmOf(body.value)).Some? ==>
      r.status == StatusInternalServerError
      && r.body == ErrorText("failed to create film: " + svc.createFilm(FilmOf(body.value)).value.text)
    ensures r.cookie == None
  {
    match body
    case Err(err) => Response(StatusBadRequest, ErrorText("failed to decode JSON: " + err.text), None, [])
    case Ok(request) =>
      match FirstFailedCheck(request)
      case Some(message) => Response(StatusBadRequest, ErrorText(message), None, [])
      case None =>
        var film := FilmOf(request);
        match svc.createFilm(film)
        case Some(err) =>
          Response(StatusInternalServerError, ErrorText("failed to create film: " + err.text), None, [CreateFilmCall(film)])
        case None =>
          Response(StatusCreated, MessageJson("film is successfully created"), None, [CreateFilmCall(film)])
  }

  /**
   * `updateFilm`: none of createFilm's checks; any decodable film is passed
   * to the service under the id from the query, its error gives 500, its
   * success 201.
   */
  function UpdateFilm(svc: FilmService, id: string, body: Result<Film>): (r: Response<FilmCall>)
    ensures body.Err? ==>
      r == Response(StatusBadRequest, ErrorText("failed to decode JSON: " + body.error.text), None, [])
    ensures body.Ok? ==> r.calls == [UpdateFilmCall(id, body.value)]
    ensures r.status == StatusCreated <==> body.Ok? && svc.updateFilm(id, body.value) == None
    ensures r.status == StatusCreated ==> r.body == MessageJson("film is successfully updated")
    ensures body.Ok? && svc.updateFilm(id, body.value).Some? ==>
      r.status == StatusInternalServerError
      && r.body == ErrorText("failed to update film: " + svc.updateFilm(id, body.value).value.text)
    ensures r.cookie == None
  {
    match body
    case Err(err) => Response(StatusBadRequest, ErrorText("failed to decode JSON: " + err.text), None, [])
    case Ok(film) =>
      match svc.updateFilm(id, film)
      case Some(err) =>
        Response(StatusInternalServerError, ErrorText("failed to update film: " + err.text), None, [UpdateFilmCall(id, film)])
      case None =>
        Response(StatusCreated, MessageJson("film is successfully updated"), None, [UpdateFilmCall(id, film)])
  }

  /** A request with the given fields and an otherwise arbitrary date and cast. */
  function Request(title: Bytes, description: Bytes, rating: real): CreateFilmRequest
  {
    CreateFilmRequest(title, description, 0, rating, [])
  }

  /** Title bounds: 0 and 151 bytes are refused, 1 and 150 accepted. */
  lemma TitleLengthBoundaries(svc: FilmService, t0: Bytes, t1: Bytes, t150: Bytes, t151: Bytes)
    requires |t0| == 0 && |t1| == 1 && |t150| == 150 && |t151| == 151
    ensures CreateFilm(svc, Ok(Request(t0, [], 5.0))).body == ErrorText(InvalidTitle)
    ensures CreateFilm(svc, Ok(Request(t151, [], 5.0))).body == ErrorText(InvalidTitle)
    ensures CreateFilm(svc, Ok(Request(t1, [], 5.0))).calls == [CreateFilmCall(FilmOf(Request(t1, [], 5.0)))]
    ensures CreateFilm(svc, Ok(Request(t150, [], 5.0))).calls == [CreateFilmCall(FilmOf(Request(t150, [], 5.0)))]
  {
  }

  /** Description bounds: 1000 bytes accepted, 1001 refused. */
  lemma DescriptionLengthBoundaries(svc: FilmService, title: Bytes, d1000: Bytes, d1001: Bytes)
    requires |title| == 1 && |d1000| == 1000 && |d1001| == 1001
    ensures CreateFilm(svc, Ok(Request(title, d1000, 5.0))).calls != []
    ensures CreateFilm(svc, Ok(Request(title, d1001, 5.0))).body == ErrorText(InvalidDescription)
  {
  }

  /** Rating bounds: 0 and 10 accepted, anything below 0 or above 10 refused. */
  lemma RatingBoundaries(svc: FilmService, title: Bytes, rating: real)
    requires |title| == 1
    ensures CreateFilm(svc, Ok(Request(title, [], 0.0))).calls != []
    ensures CreateFilm(svc, Ok(Request(title, [], 10.0))).calls != []
    ensures (rating < 0.0 || rating > 10.0) ==>
      CreateFilm(svc, Ok(Request(title, [], rating))).body == ErrorText(InvalidRating)
  {
  }

  /** A bad title is reported whatever the description and rating; a bad description whatever the rating. */
  lemma ChecksRunInOrder(svc: FilmService, req: CreateFilmRequest)
    ensures !TitleOk(req) ==> CreateFilm(svc, Ok(req)).body == ErrorText(InvalidTitle)
    ensures TitleOk(req) && !DescriptionOk(req) ==> CreateFilm(svc, Ok(req)).body == ErrorText(InvalidDescription)
  {
  }

  /**
   * Every request createFilm refuses on a check is, as a film, accepted by
   * updateFilm and handed to the service unchanged.
   */
  lemma UpdateSkipsValidation(svc: FilmService, id: string, req: CreateFilmRequest)
    requires FirstFailedCheck(req).Some?
    ensures CreateFilm(svc, Ok(req)).calls == []
    ensures UpdateFilm(svc, id, Ok(FilmOf(req))).calls == [UpdateFilmCall(id, FilmOf(req))]
  {
  }
}
