/** Failure-compatible wrappers shared by the model: an optional value, a value-or-error,
    and a pass-or-error outcome. */
module Wrappers {

  datatype Option<+T> = None | Some(value: T) {
    /** The wrapped value, or `default` when there is none. */
    function GetOr(default: T): T {
      match this
      case Some(v) => v
      case None => default
    }
  }

  datatype Result<+R, +E> = Success(value: R) | Failure(error: E)

  datatype Outcome<+E> = Pass | Fail(error: E)
}

/** HTTP errors raised by the service (FastAPI's `HTTPException`), with the exact status codes
    and detail strings the handlers use. */
module Http {

  datatype HttpError = HttpError(status: nat, detail: string)

  const SERVER_MISCONFIGURED := HttpError(500, "Server misconfigured")
  const INVALID_ADMIN_TOKEN := HttpError(401, "Invalid admin token")
  const PROJECT_NOT_FOUND := HttpError(404, "Project not found")
  const IMAGE_TOO_LARGE := HttpError(400, "Imagem muito grande. Reduza antes do upload.")
  const NO_FIELDS := HttpError(400, "Nenhum campo enviado para atualizar.")
}
