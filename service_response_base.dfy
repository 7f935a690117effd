/** `ServiceResponseBase`: a response envelope that owns a list of error
    messages. The list is created empty with the envelope, the reference to it
    can never be replaced, and only its contents change afterwards. */
module ServiceResponse {

  /** A `List<string>`: its contents, which its owner's subclasses may change
      in place. */
  class StringList {
    var items: seq<string>

    constructor ()
      ensures items == []
    {
      items := [];
    }
  }

  class ServiceResponseBase {
    /** `ErrorList { get; }`: no setter, so the list object is fixed once the
        constructor has run. */
    const ErrorList: StringList

    constructor ()
      ensures fresh(ErrorList)
      ensures ErrorList.items == []
    {
      ErrorList := new StringList();
    }
  }
}
