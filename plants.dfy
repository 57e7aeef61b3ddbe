/**
 * The plant record as the API returns it, its notes and care-log entries,
 * and the requests the pages send.
 *
 * Every field of a plant is optional: the pages read whatever the server
 * sent, and `None` stands for a field that is absent or `null`.
 * Timestamps are integers (milliseconds since the epoch).
 */
module Plants {
  import opened Wrappers

  /** A note (`{ text, date }`) or a care-log entry (`{ type, date, details }`). */
  datatype Entry =
    | Note(text: string, date: int)
    | CareLog(kind: string, date: int, details: Option<string>)

  datatype Plant = Plant(
    id: Option<string>,
    nombreComun: Option<string>,
    family: Option<string>,
    nivelCuidado: Option<string>,
    riego: Option<real>,
    cantidad: Option<real>,
    iluminacion: Option<string>,
    temperatura: Option<string>,
    humedad: Option<string>,
    suelo: Option<string>,
    propagacion: Option<string>,
    toxicity: Option<bool>,
    imageUrl: Option<string>,
    nickname: Option<string>,
    locationInHome: Option<string>,
    nextWatering: Option<int>,
    nextFertilization: Option<int>,
    notes: Option<seq<Entry>>,
    careLogs: Option<seq<Entry>>)

  datatype HttpMethod = Get | Post | Patch | Delete

  /** A request to the API; the base URL from the environment is left implicit. */
  datatype Request = Request(verb: HttpMethod, path: string)

  /** The two schedule actions a plant card offers. */
  datatype CareAction = Water | Fertilize

  const PlantsPath: string := "/api/plants"

  /** How JavaScript renders an identifier inside a template string. */
  function IdText(id: Option<string>): string {
    id.GetOr("undefined")
  }

  function PlantPath(id: string): string {
    PlantsPath + "/" + id
  }

  function ActionPath(action: CareAction, id: string): string {
    PlantPath(id) + (if action == Water then "/water" else "/fertilize")
  }

  function NotesPath(id: string): string {
    PlantPath(id) + "/notes"
  }

  /** `GET /api/plants`, the full-collection refetch. */
  const ListRequest: Request := Request(Get, PlantsPath)

  function ActionRequest(action: CareAction, id: string): Request {
    Request(Post, ActionPath(action, id))
  }
}
