/** The two net/http status codes the probe handlers answer with. */
module NetHttp {
  const StatusOK: int := 200
  const StatusServiceUnavailable: int := 503
}
