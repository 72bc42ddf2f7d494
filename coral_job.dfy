/**
 * The Coral Job the server and client hooks receive: the request attributes
 * the getters read (each null when the request does not carry it), the reply
 * status, the job's runtime class and its failure.
 */
module CoralJob {
  import opened Outcomes
  import opened JavaText

  /** The request attributes, keyed in Coral by ServiceConstant and HttpConstant names. */
  datatype Request = Request(
    operationName: Option<string>,            // SERVICE_OPERATION_NAME
    headers: Option<map<string, string>>,     // HTTP_HEADERS
    host: Option<string>,                     // HTTP_HOST
    target: Option<string>,                   // HTTP_TARGET
    clientIp: Option<string>,                 // HTTP_CLIENT_IP
    verb: Option<string>,                     // HTTP_VERB
    userAgent: Option<string>,                // HTTP_USER_AGENT
    protocol: Option<string>,                 // HTTP_PROTOCOL
    remoteAddress: Option<string>,            // HTTP_REMOTE_ADDRESS
    serviceName: Option<string>)              // SERVICE_NAME

  /** The reply attribute the extractors read: HTTP_STATUS_CODE. */
  datatype Reply = Reply(statusCode: Option<Int32>)

  datatype Job = Job(className: string, request: Request, reply: Reply, failure: Option<Fault>)
}
