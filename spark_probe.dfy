/**
 * The availability probe of src/index.ts (isSparkRunning): a HEAD request to
 * the Spark UI through the notebook proxy, classified by where the response
 * ended up after redirects and by its status. The request itself is I/O; the
 * model takes its outcome as a value.
 */
module SparkProbe {

  /** What the HEAD request produced: a thrown transport error, or a final URL and a status. */
  datatype Response = TransportError | Received(url: string, status: int)

  /** The path, under the base, of the proxied Spark UI on port 4040. */
  const JobsPath: string := "/proxy/4040/jobs/"

  /** The URL the probe requests and the frame later shows (src/index.ts:45, 111): the base, then the jobs path. */
  function ProbeUrl(base: string): (u: string)
    ensures base <= u && u[|base|..] == JobsPath
  {
    base + JobsPath
  }

  /** JavaScript's String.prototype.startsWith, one character at a time: it is the prefix relation. */
  function StartsWith(s: string, prefix: string): (b: bool)
    ensures b <==> prefix <= s
  {
    if prefix == [] then true
    else if s == [] then false
    else s[0] == prefix[0] && StartsWith(s[1..], prefix[1..])
  }

  /** Response.ok: the status is in the range 200..299, that is, in the 2xx class. */
  predicate IsOkStatus(status: int): (ok: bool)
    ensures ok <==> 0 <= status && status / 100 == 2
  {
    200 <= status <= 299
  }

  /**
   * isSparkRunning after the request (src/index.ts:43-57): a transport error
   * is caught and reported as not running; a response whose final URL does
   * not start with the page's origin is rejected whatever its status;
   * otherwise the answer is whether the status is 2xx.
   */
  function IsSparkRunning(response: Response, origin: string): (running: bool)
    ensures running <==> response.Received? && origin <= response.url && 200 <= response.status <= 299
  {
    match response
    case TransportError => false
    case Received(url, status) =>
      if !StartsWith(url, origin) then false
      else IsOkStatus(status)
  }

  /**
   * The check is a textual prefix test, not an origin comparison: a host
   * whose name extends the origin's passes, and so does another port on an
   * origin that names no port.
   */
  lemma PrefixAdmitsLongerHost()
    ensures IsSparkRunning(Received("https://hub.example.com.other.net/proxy/4040/jobs/", 200), "https://hub.example.com")
    ensures IsSparkRunning(Received("http://localhost:4040/jobs/", 200), "http://localhost")
  {
    var url := "https://hub.example.com.other.net/proxy/4040/jobs/";
    assert url[..23] == "https://hub.example.com";
    var direct := "http://localhost:4040/jobs/";
    assert direct[..16] == "http://localhost";
  }

  /** Examples of the classification: 200 on the origin, 404 and 503, a network error. */
  lemma ProbeExamples(origin: string, base: string)
    ensures IsSparkRunning(Received(ProbeUrl(origin + base), 200), origin)
    ensures !IsSparkRunning(Received(ProbeUrl(origin + base), 404), origin)
    ensures !IsSparkRunning(Received(ProbeUrl(origin + base), 503), origin)
    ensures !IsSparkRunning(TransportError, origin)
  {
    assert ProbeUrl(origin + base)[..|origin|] == origin;
  }

  /** A 200 whose final URL does not start with the origin is rejected. */
  lemma RedirectElsewhereRejected()
    ensures !IsSparkRunning(Received("http://spark.internal:4040/jobs/", 200), "http://localhost:8888")
  {
    var url := "http://spark.internal:4040/jobs/";
    assert url[7] != "http://localhost:8888"[7];
  }
}
