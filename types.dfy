/**
 * The records the volume commands work on, with the fields the commands
 * read, and the shapes of what a command gets back from the API transport
 * and what it produces.
 */
module VolumeTypes {

  /** Which application mount point a volume is bound to. */
  datatype BindID = BindID(App: string, MountPoint: string)

  /** The attachment of a volume to an application. */
  datatype Bind = Bind(ID: BindID, ReadOnly: bool)

  /** A named volume template; option values are kept already formatted as text. */
  datatype VolumePlan = VolumePlan(Name: string, Opts: map<string, string>)

  datatype Volume = Volume(
    Name: string,
    Plan: VolumePlan,
    Pool: string,
    TeamOwner: string,
    Opts: map<string, string>,
    Binds: seq<Bind>)

  /** A value or the error that replaced it. */
  datatype Result<T> = Success(value: T) | Failure(error: string)

  /**
   * What the transport hands a read command: the request failed (URL, network
   * or a non-success status), the server answered 204 No Content, or a body
   * whose JSON decoding gave a value or a decoding error.
   */
  datatype Response<T> = TransportError(error: string) | NoContent | Body(decoded: Result<T>)

  /** What a read command ends with: an error, a fixed message line, or a rendered view. */
  datatype Outcome<V> = Failed(error: string) | Message(text: string) | Shown(view: V)

  const NoVolumesMessage: string := "No volumes available."
}
