/**
 * The join-or-create form: its fields (`username`, `roomId`, `mode`) and
 * the `error` and `loading` flags that `handleSubmit` sets around the call
 * to the `onSubmit` callback. The random id comes in as an arbitrary string,
 * and the callback is represented by what it hands back: whether it threw.
 */
module CreateOrJoin {
  import opened Wrappers
  import Text

  datatype Mode = Join | Create

  /** The argument `handleSubmit` passes to `onSubmit`. */
  datatype Submission = Submission(username: string, roomId: string, mode: Mode)

  const MissingFieldsError: string := "Please fill in all required fields."
  const SubmitFailedError: string := "An error occurred. Please try again."

  /** How many characters of the random id a created room's id keeps. */
  const CreatedRoomIdLength: nat := 6

  /**
   * The validation test `!username || (mode === "join" && !roomId)`: a
   * username is always required, a room id only when joining. The test is
   * on emptiness alone; nothing is trimmed.
   */
  function MissingRequired(username: string, roomId: string, mode: Mode): (r: bool)
    ensures mode == Create ==> (r <==> username == "")
    ensures mode == Join ==> (r <==> username == "" || roomId == "")
  {
    username == "" || (mode == Join && roomId == "")
  }

  /**
   * The room id submitted: in create mode the first six characters of the
   * random id, whatever was typed; in join mode the typed id unchanged.
   */
  function FinalRoomId(mode: Mode, roomId: string, uuid: string): (r: string)
    ensures mode == Join ==> r == roomId
    ensures mode == Create ==> r <= uuid
    ensures mode == Create ==> |r| == if |uuid| < CreatedRoomIdLength then |uuid| else CreatedRoomIdLength
  {
    if mode == Create then Text.Prefix(uuid, CreatedRoomIdLength) else roomId
  }

  /** A username of spaces alone passes validation although it trims to nothing. */
  lemma BlankUsernamePasses(username: string, roomId: string, mode: Mode)
    requires username != "" && Text.AllWhitespace(username)
    requires mode == Join ==> roomId != ""
    ensures !MissingRequired(username, roomId, mode)
    ensures Text.Trim(username) == ""
  {
  }

  class Form {
    var username: string
    var roomId: string
    var mode: Mode
    var error: string
    var loading: bool

    /** The form on first render: empty fields, join mode, no error, not loading. */
    constructor ()
      ensures username == "" && roomId == "" && mode == Join
      ensures error == "" && !loading
    {
      username, roomId, mode := "", "", Join;
      error, loading := "", false;
    }

    /**
     * `handleSubmit`. When a required field is empty it reports that and
     * calls nothing. Otherwise it hands `submitted` to `onSubmit` with loading
     * on, then clears the error (or reports the failure when the callback
     * threw) and always ends with loading off.
     */
    method HandleSubmit(uuid: string, onSubmitThrows: bool) returns (submitted: Option<Submission>)
      modifies this`error, this`loading
      ensures MissingRequired(username, roomId, mode) ==>
                submitted == None && error == MissingFieldsError && loading == old(loading)
      ensures !MissingRequired(username, roomId, mode) ==>
                && submitted == Some(Submission(username, FinalRoomId(mode, roomId, uuid), mode))
                && error == (if onSubmitThrows then SubmitFailedError else "")
                && !loading
    {
      if username == "" || (mode == Join && roomId == "") {
        error := MissingFieldsError;
        return None;
      }
      loading := true;
      var finalRoomId := if mode == Create then Text.Prefix(uuid, CreatedRoomIdLength) else roomId;
      submitted := Some(Submission(username, finalRoomId, mode));
      if !onSubmitThrows {
        error := "";
      } else {
        error := SubmitFailedError;
      }
      loading := false;
    }
  }
}
