/** A view model that gets its list of models from an injected service, and the mock
    service used in its place during development. As elsewhere, a `fetchData` call is
    modelled by the sequence of results it passes to its completion handler. */
module MockDataServiceExample {
  import opened Swift
  import opened Foundation

  datatype DataModel = DataModel(title: string)

  /** The mock service: always a success with the same two models. */
  class MockDataService {
    constructor ()
    {
    }

    /** Exactly one completion, a success holding the models titled "M" and "F", in
        that order; it never reports a failure. */
    method FetchData() returns (completions: seq<Result<seq<DataModel>, Error>>)
      ensures |completions| == 1 && completions[0].Success?
      ensures completions[0].value == [DataModel("M"), DataModel("F")]
    {
      var mockData := [DataModel("M"), DataModel("F")];
      completions := [Success(mockData)];
    }
  }

  class ViewModel {
    /** The published list of models. */
    var data: seq<DataModel>
    const service: MockDataService

    /** A new view model has no data yet. */
    constructor (service: MockDataService)
      ensures data == [] && this.service == service
    {
      data := [];
      this.service := service;
    }

    /** The completion handler `fetchData` passes to the service: a success replaces
        `data`, a failure is ignored. */
    method Receive(result: Result<seq<DataModel>, Error>)
      modifies this
      ensures result.Success? ==> data == result.value
      ensures result.Failure? ==> data == old(data)
    {
      match result {
        case Success(list) => data := list;
        case Failure(_) =>
      }
    }

    /** `fetchData()`: ask the service and handle each result it delivers. */
    method FetchData()
      modifies this
      ensures data == [DataModel("M"), DataModel("F")]
    {
      var completions := service.FetchData();
      Receive(completions[0]);
    }
  }

  /** `testViewModelFetchesData()`, with its check written out: the view model built on the
      mock starts empty and holds the mock's two models once it has fetched. */
  method TestViewModelFetchesData() returns (before: seq<DataModel>, after: seq<DataModel>)
    ensures before == []
    ensures after == [DataModel("M"), DataModel("F")]
  {
    var mockService := new MockDataService();
    var viewModel := new ViewModel(mockService);
    before := viewModel.data;
    viewModel.FetchData();
    after := viewModel.data;
  }
}
