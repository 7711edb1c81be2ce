/**
 * The storage-event function `requestMalwareScan`: for an upload notification
 * it asks the scanning service to scan the uploaded object.
 *
 * The HTTP client is an oracle: the handler appends the request it issues to
 * the `sent` sequence of a `ScanTrigger` object, and a flag says whether that
 * request fails (the client rejects on a transport error or a non-2xx reply).
 */
module ScanTrigger {
  import opened Strings

  /** The only event type that is forwarded to the scanning service. */
  const FinalizeEventType: string := "google.storage.object.finalize"

  /** The event payload: the object's bucket and name. */
  datatype StorageObject = StorageObject(bucket: string, name: string)

  /** The event metadata. */
  datatype EventContext = EventContext(eventId: string, eventType: string)

  /** The JSON body of a scan request. */
  datatype ScanRequestBody = ScanRequestBody(location: string, filename: string, bucketname: string)

  /** The options handed to the HTTP client: method, target, body, and whether the body is sent as JSON. */
  datatype RequestOptions = RequestOptions(httpMethod: string, uri: string, body: ScanRequestBody, json: bool)

  /** The `gs://` URL of an object. */
  function Location(bucket: string, name: string): string
  {
    "gs://" + bucket + "/" + name
  }

  /** The request for a scan of `file`, sent to the service at `serviceUrl` (SCAN_SERVICE_URL). */
  function BuildOptions(file: StorageObject, serviceUrl: string): (o: RequestOptions)
    ensures o.httpMethod == "POST" && o.json && o.uri == serviceUrl
    ensures o.body.filename == file.name && o.body.bucketname == file.bucket
    ensures o.body.location == Location(o.body.bucketname, o.body.filename)
  {
    RequestOptions("POST", serviceUrl,
                   ScanRequestBody(Location(file.bucket, file.name), file.name, file.bucket),
                   true)
  }

  /** In `bucket + "/" + name`, with no '/' in the bucket, the first '/' is the one just after the bucket. */
  lemma FirstSlashEndsBucket(bucket: string, name: string)
    requires '/' !in bucket
    ensures IndexOf(bucket + "/" + name, "/") == |bucket|
  {
    var s := bucket + "/" + name;
    assert s[|bucket|..|bucket| + 1] == "/";
    forall i | 0 <= i < |bucket|
      ensures !OccursAt(s, "/", i)
    {
      assert s[i..i + 1] == [bucket[i]];
    }
    assert OccursAt(s, "/", |bucket|);
    var r := IndexOf(s, "/");
    assert !OccursAt(s, "/", r) || r >= |bucket|;
  }

  /**
   * The location names the object unambiguously: bucket names cannot
   * contain '/', so the bucket and the object name can be read back from it.
   */
  lemma LocationIdentifiesObject(b1: string, n1: string, b2: string, n2: string)
    requires '/' !in b1 && '/' !in b2
    requires Location(b1, n1) == Location(b2, n2)
    ensures b1 == b2 && n1 == n2
  {
    var s1, s2 := b1 + "/" + n1, b2 + "/" + n2;
    assert Location(b1, n1) == "gs://" + s1;
    assert Location(b2, n2) == "gs://" + s2;
    assert s1 == Location(b1, n1)[5..] == s2;
    FirstSlashEndsBucket(b1, n1);
    FirstSlashEndsBucket(b2, n2);
    assert b1 == s1[..|b1|] == s2[..|b2|] == b2;
    assert n1 == s1[|b1| + 1..] == s2[|b2| + 1..] == n2;
  }

  /** Two requests built for objects in well-formed buckets are equal only when they are for the same object. */
  lemma BuildOptionsInjective(f1: StorageObject, f2: StorageObject, url: string)
    requires '/' !in f1.bucket && '/' !in f2.bucket
    ensures BuildOptions(f1, url).body.location == BuildOptions(f2, url).body.location <==> f1 == f2
  {
    if BuildOptions(f1, url).body.location == BuildOptions(f2, url).body.location {
      LocationIdentifiesObject(f1.bucket, f1.name, f2.bucket, f2.name);
    }
  }

  /** The requests one event gives rise to: one for a finalize event, none otherwise. */
  function Dispatch(file: StorageObject, context: EventContext, serviceUrl: string): (requests: seq<RequestOptions>)
    ensures |requests| <= 1
    ensures |requests| == 1 <==> context.eventType == FinalizeEventType
    ensures forall r :: r in requests ==> r == BuildOptions(file, serviceUrl)
  {
    if context.eventType == FinalizeEventType then [BuildOptions(file, serviceUrl)] else []
  }

  /** What the handler logs when it is done with an event. */
  datatype Note = ScanSucceeded(name: string) | ScanFailed(name: string) | NotAnUpload

  /** The log line for an event, given whether the scan request fails. */
  function Report(file: StorageObject, context: EventContext, requestFails: bool): (n: Note)
    ensures n == NotAnUpload <==> context.eventType != FinalizeEventType
    ensures n.ScanFailed? <==> context.eventType == FinalizeEventType && requestFails
    ensures !n.NotAnUpload? ==> n.name == file.name
  {
    if context.eventType != FinalizeEventType then NotAnUpload
    else if requestFails then ScanFailed(file.name)
    else ScanSucceeded(file.name)
  }

  /** The deployed function: its configured target, the requests it has sent and what it has logged. */
  class ScanTrigger {
    const serviceUrl: string
    var sent: seq<RequestOptions>
    var log: seq<Note>

    constructor (serviceUrl: string)
      ensures this.serviceUrl == serviceUrl && sent == [] && log == []
    {
      this.serviceUrl := serviceUrl;
      sent, log := [], [];
    }

    /**
     * `requestMalwareScan(data, context)`. A finalize event issues exactly one
     * POST; any other event issues none. A failure of the request is caught
     * and logged, so the handler never raises.
     */
    method RequestMalwareScan(data: StorageObject, context: EventContext, requestFails: bool)
      modifies this
      ensures sent == old(sent) + Dispatch(data, context, serviceUrl)
      ensures log == old(log) + [Report(data, context, requestFails)]
    {
      var file := data;
      var options := RequestOptions("POST", serviceUrl,
                                    ScanRequestBody("gs://" + file.bucket + "/" + file.name, file.name, file.bucket),
                                    true);
      if context.eventType == FinalizeEventType {
        sent := sent + [options];
        if requestFails {
          log := log + [ScanFailed(file.name)];
        } else {
          log := log + [ScanSucceeded(file.name)];
        }
      } else {
        log := log + [NotAnUpload];
      }
    }
  }
}
