/** The two implementations of the data-service protocol used to show unit testing: a real
    service whose network code is not written, and a mock whose caller chooses the data or
    the error it reports. A `fetchData` call is modelled by the sequence of results it
    passes to its completion handler, one element per invocation. */
module UnitTesting {
  import opened Swift
  import opened Foundation

  /** The real service: its `fetchData` is empty. */
  class RealDataService {
    constructor ()
    {
    }

    /** The completion handler is never invoked. */
    method FetchData() returns (completions: seq<Result<Data, Error>>)
      ensures completions == []
    {
      completions := [];
    }
  }

  /** The mock: a test sets `dataToReturn` and `errorToReturn` before calling `fetchData`. */
  class MockDataServiceUnitTesing {
    var dataToReturn: Option<Data>
    var errorToReturn: Option<Error>

    constructor ()
      ensures dataToReturn == None && errorToReturn == None
    {
      dataToReturn := None;
      errorToReturn := None;
    }

    /** The completion is invoked exactly once. A set error wins over set data; without an
        error the data is delivered, and empty `Data()` when none was set. */
    method FetchData() returns (completions: seq<Result<Data, Error>>)
      ensures |completions| == 1
      ensures errorToReturn.Some? ==> completions[0] == Failure(errorToReturn.value)
      ensures errorToReturn.None? && dataToReturn.Some? ==> completions[0] == Success(dataToReturn.value)
      ensures errorToReturn.None? && dataToReturn.None? ==> completions[0] == Success([])
    {
      match errorToReturn {
        case Some(error) =>
          completions := [Failure(error)];
        case None =>
          var data := match dataToReturn case Some(d) => d case None => [];
          completions := [Success(data)];
      }
    }
  }

  /** With both fields set, the mock still reports the error. */
  method ErrorWinsOverData(data: Data, error: Error) returns (completions: seq<Result<Data, Error>>)
    ensures completions == [Failure(error)]
  {
    var mock := new MockDataServiceUnitTesing();
    mock.dataToReturn := Some(data);
    mock.errorToReturn := Some(error);
    completions := mock.FetchData();
  }
}
