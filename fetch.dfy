/**
 What one request to the lottery API yields, as far as the sync code looks at it. The
 request itself is not modelled: each sync takes its outcome as an argument.
 */
module Fetch {

  /** The body of a reply. */
  datatype Body =
    /** data['response']['date'] and data['response']['runningNumbers'][0]['number'][0]. */
    | Fields(rawDate: string, number: string)
    /** Reading one of those raises KeyError or IndexError. */
    | MissingField
    /** response.json() fails; requests raises its JSONDecodeError, a RequestException. */
    | NotJson

  datatype FetchOutcome =
    /** requests.get raised a RequestException (timeout, connection error, ...). */
    | TransportError
    /** An HTTP reply with its status code. */
    | Reply(status: int, body: Body)
}
