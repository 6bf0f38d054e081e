/** The application's canonical entities (the shapes of `types/index.ts`). */
module Types {
  import opened Wrappers

  datatype Team = Team(id: int, name: string, country: string, logo: string, flag: string)

  datatype League = League(id: int, name: string, country: string, logo: string, flag: string, region: string)

  datatype Competition = Competition(name: string, logo: string, country: string)

  datatype Side = Side(name: string, logo: string)

  /**
   * A fixture as the views see it. `status` is a plain string; the normaliser only
   * ever produces the four values below. An absent `elapsed` or score is `None`.
   */
  datatype Match = Match(
    id: int,
    date: string,
    time: string,
    competition: Competition,
    homeTeam: Side,
    awayTeam: Side,
    status: string,
    elapsed: Option<string>,
    homeScore: Option<int>,
    awayScore: Option<int>)

  const NOT_STARTED: string := "Not Started"
  const LIVE: string := "Live"
  const FINISHED: string := "Finished"
  const CANCELED: string := "Canceled"

  /** The four canonical statuses. */
  predicate IsCanonicalStatus(s: string) {
    s == NOT_STARTED || s == LIVE || s == FINISHED || s == CANCELED
  }

  /** JavaScript truthiness of an optional string: present and non-empty. */
  predicate Truthy(s: Option<string>) {
    s.Some? && s.value != ""
  }
}
