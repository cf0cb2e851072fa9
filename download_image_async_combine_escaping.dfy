/** The response check shared by the three image downloaders. */
module DownloadImageAsyncCombineEscaping {
  import opened Swift
  import opened Foundation

  /** `200..<300 ~= statusCode`. */
  predicate IsSuccessStatus(statusCode: int)
  {
    200 <= statusCode < 300
  }

  /** `handleResponse(data:response:)`. `decodeImage` stands for `UIImage(data:)`. An image
      comes back exactly when there is data, it decodes, the response is an HTTP response
      and its status is a success; it is then the decoded image. */
  function HandleResponse<Image>(data: Option<Data>, response: Option<URLResponse>,
                                 decodeImage: Data -> Option<Image>): (r: Option<Image>)
    ensures r.Some? <==>
      && data.Some?
      && decodeImage(data.value).Some?
      && response.Some? && response.value.HTTPURLResponse?
      && IsSuccessStatus(response.value.statusCode)
    ensures r.Some? ==> r == decodeImage(data.value)
  {
    match data
    case None => None
    case Some(bytes) =>
      match decodeImage(bytes)
      case None => None
      case Some(image) =>
        match response
        case Some(HTTPURLResponse(statusCode)) =>
          if IsSuccessStatus(statusCode) then Some(image) else None
        case _ => None
  }

  /** The ends of the status range: 200 and 299 get the image through, 199 and 300 do not. */
  lemma StatusRangeEnds<Image>(bytes: Data, decodeImage: Data -> Option<Image>)
    requires decodeImage(bytes).Some?
    ensures HandleResponse(Some(bytes), Some(HTTPURLResponse(200)), decodeImage) == decodeImage(bytes)
    ensures HandleResponse(Some(bytes), Some(HTTPURLResponse(299)), decodeImage) == decodeImage(bytes)
    ensures HandleResponse(Some(bytes), Some(HTTPURLResponse(199)), decodeImage) == None
    ensures HandleResponse(Some(bytes), Some(HTTPURLResponse(300)), decodeImage) == None
  {
  }
}
