# Token-refreshing retry decision of the Port client transport

This project models `TokenRetryTransport`, the HTTP transport of the Port client
in the Ocean integration framework. It extends the generic retry transport by
one retry case. An unauthorized (401) response is a *token error* when all of
these hold:

- the string `/auth/access_token` does not occur anywhere in the request URL
  (this covers the token endpoint itself, among others);
- the auth client holds a cached token object;
- that token object is marked expired.

On a token error, both retry-decision entry points fetch a fresh token. They
write `Bearer <token>` into the response's `Authorization` header and answer
"retry" without asking the base transport. Otherwise they return the base
transport's answer unchanged.

Modules:

- `Wrappers` (wrappers.dfy): `Option` and `Result`. A `Failure` stands for a
  raised exception.
- `Text` (text.dfy): Python's `sub in s` on strings. It is proved equal to a
  reference "occurs at some index" definition.
- `Headers` (headers.dfy): the httpx header mapping. Names are
  case-insensitive, so the map is keyed by the ASCII-lower-cased name. The
  type `HeaderMap` admits only maps whose keys are already lower-cased, so no
  two entries differ only in case. Lookup (`Get`) and assignment (`Set`)
  normalise the name the same way.
- `TokenRetry` (token_retry.dfy):
  - `IsTokenError`: the predicate.
  - `Decide`: a value-level specification of one retry decision. It gives the
    answer, the headers afterwards, and the number of token fetches and
    base-predicate consultations.
  - The classes `Auth`, `Response` and `TokenRetryTransport`, whose methods are
    proved to behave as `Decide` says.

The refresh writes to `response.headers`, not to the request that is sent
again. The model follows the code in this.

## Model

| member | source | states |
|---|---|---|
| `Text.Contains` | port_ocean/clients/port/retry_transport.py:25 | Python's `in` on the URL string: true exactly when the needle occurs at some index of the haystack |
| `Text.ContainsInfix` | port_ocean/clients/port/retry_transport.py:25 | any URL of the form prefix + `/auth/access_token` + suffix contains the token path |
| `Headers.Set` | port_ocean/clients/port/retry_transport.py:20 | assigning `headers["Authorization"]` makes a lookup of that name yield the value; every header with a different (case-insensitive) name keeps its value; the only key added is the normalised name |
| `TokenRetry.IsTokenError` | port_ocean/clients/port/retry_transport.py:22-28 | true exactly when the status is 401, `/auth/access_token` does not occur in the URL, a cached token object exists and it is expired |
| `TokenRetry.Decide` | port_ocean/clients/port/retry_transport.py:30-76 | on a token error, exactly one token fetch and no base consultation; with a fetched token the answer is "retry" and `Authorization` reads `Bearer <token>`; with a failed fetch the fault propagates and the headers are untouched; otherwise no fetch, untouched headers and the base answer unchanged; no header other than `Authorization` ever changes; a fault is raised only by a failed refresh |
| `TokenRetry.AccessTokenEndpointFallsThrough` | port_ocean/clients/port/retry_transport.py:25 | a response whose request URL contains `/auth/access_token` anywhere (the token endpoint itself among others) is never refreshed, whatever its status and cached token: the base answer is returned, headers untouched, no fetch |
| `TokenRetry.ExpiredTokenOnDataEndpoint` | port_ocean/tests/test_token_retry_transport.py:34-42 | a 401 from `https://api.example.com/data` with an expired cached token and a fetch yielding `NEW_TOKEN` is retried with `Authorization: Bearer NEW_TOKEN`, one fetch, no base consultation |
| `TokenRetry.Auth.Token` | port_ocean/clients/port/retry_transport.py:19 | awaiting the auth client's `token` yields what the credential source answers and counts one fetch |
| `TokenRetry.TokenRetryTransport.BaseShouldRetry` | port_ocean/clients/port/retry_transport.py:38-76 | `super()._should_retry_async` (line 38) and `super()._should_retry` (line 76): the base transport's predicate, answered for the response as it stands, counts one consultation |
| `TokenRetry.TokenRetryTransport.HandleUnauthorized` | port_ocean/clients/port/retry_transport.py:18-20 | exactly one fetch; on success the response's `Authorization` header is set to `Bearer <token>` and no other header changes; on failure the fault is raised and the headers are untouched |
| `TokenRetry.TokenRetryTransport.ShouldRetryAsync` | port_ocean/clients/port/retry_transport.py:30-38 | answer, new headers, fetch count and base-consultation count are those of `Decide` on the old response and auth state |
| `TokenRetry.TokenRetryTransport.ShouldRetry` | port_ocean/clients/port/retry_transport.py:40-76 | the blocking path: the same as `Decide`, including a refresh fault re-raised to the caller instead of an answer |
| `TokenRetry.PathsAgree` | port_ocean/clients/port/retry_transport.py:30-76 | two transports whose auth clients are in the same state and whose base predicates agree, asked about two responses that look the same: the blocking and asynchronous paths give the same answer, leave the same headers and make the same number of fetches and base consultations |
| `TokenRetry.ExpiredTokenScenario` | port_ocean/tests/test_token_retry_transport.py:38-59 | the unit-test scenario through both entry points: each returns "retry" and leaves `Authorization: Bearer NEW_TOKEN` |

## Left out

- Event-loop detection and the helper thread of the blocking path (`asyncio.get_running_loop`, `asyncio.run`, `threading.Thread` with `start`/`join`) are concurrency plumbing. Both branches run the same refresh to completion and surface its fault, so they are one refresh step in the model.
- `TokenRetry.TokenRetryTransport.ShouldRetry`: the helper-thread branch catches only `Exception`. A `BaseException` raised by the refresh on that branch is not modelled.
- The base `RetryTransport` (`port_ocean.helpers.retry`) is not part of this model. This covers its attempt loop, retryable methods and status codes, and backoff with jitter and sleeping. Its `_should_retry` and `_should_retry_async` are one opaque predicate over the response, given to the transport at construction. The model therefore assumes the base gives the same answer on both paths.
- Token acquisition (`port_client.auth.token`) is network I/O. It is a field holding what the next fetch yields: a token string or a fault. The auth client's own bookkeeping is not part of this model, including any update of `last_token_object` after a fetch.
- Logger calls: side effects only.
- The `port_client` indirection: the transport holds the auth client directly.
- httpx headers preserve the raw case of names and allow repeated names. The model keeps one value per case-insensitive name, which is what lookups and the assignment at line 20 observe.
- `str(response.request.url)` raises when a response has no request. The model always has a URL.
- `port_ocean/core/defaults/clean.py` and its tests, `reproducing_issue.py` and the ArgoCD, SonarQube, plotly and JQ tests are outside this component. They are remote-API orchestration, a mock-driven script, or tests of files that are not part of this model.
