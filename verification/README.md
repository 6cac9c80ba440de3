# Credentialed list-operations service, modelled in Dafny

The service registers usernames with bcrypt password hashes, logs users in by
issuing a JWT access token that expires 30 minutes after issue, and offers
five list operations on integers (bubble sort, even filter, sum, max, binary
search), each behind an auth gate (`get_current_user`) that decodes the token
passed as a query parameter.

The model has five modules:

- `Responses` (responses.dfy): `Option`, `Response` and the four failures.
  `StatusCode` and `Detail` are lookup tables, not models with contracts: they
  record the status and text each failure is answered with: 400
  "El usuario ya existe" (main.py:93), 401 "Credenciales Inválidas"
  (main.py:68, 70), 401 "Token inválido" (main.py:121, 123), and for `max` on
  an empty list the framework's plain-text 500 "Internal Server Error".
- `ListOps` (list_ops.dfy): the five list algorithms. Bubble sort, sum, max
  and binary search are methods with loop invariants. The even filter is a
  recursive function. Each comes with an independent specification:
  sortedness and permutation, subsequence and element counts, a recursive
  reference sum, and membership.
- `Tokens` (tokens.dfy): token claims, `create_access_token` and the auth
  gate. `jwt.encode`/`jwt.decode` with the fixed key and HS256 are a
  `Signer` value passed in. The only property assumed of it is
  `DecodesOwnTokens`: decoding an encoded payload gives the payload back.
  PyJWT's default `exp` check is written out: a token is expired once the
  clock reaches `exp`, with no leeway, and a token without `exp` never
  expires. The clock is an integer count of seconds passed in by the caller.
- `Credentials` (credentials.dfy): the credential store is a
  `map<Username, Digest>` value, not the module-level `fake_db`. This module
  holds `register` and `login`. bcrypt's `hash`/`verify` are a `Hasher` value
  passed in, and bcrypt's random salt is a parameter. The only property
  assumed of the hasher is `HashVerifies`: a password verifies against any
  hash of itself.
- `Service` (service.dfy): the five protected endpoints. The gate runs first,
  then the endpoint's operation. The module also checks the repository's
  test requests (`SortScenario` and the others): sorting `[3,2,1]`, filtering,
  summing, taking the max, searching, and being rejected with a bad token.

## Model

| member | source | states |
|---|---|---|
| ListOps.BubbleSort | main.py:141-148 | The nested adjacent-swap loops return the input sorted ascending, as a permutation (same multiset). The loop invariants say that after pass `i` the last `i+1` positions hold the largest elements in their final order. |
| ListOps.BubblePass | main.py:144-146 | One inner pass over positions `0..hi` permutes only that prefix, leaves the rest untouched, and ends with the prefix's largest element at position `hi`. A prefix that was at most every later element stays so. |
| ListOps.SwapAdjacent | main.py:146 | Neighbours `j` and `j+1` trade places and every other position is unchanged. The multiset is kept, and a prefix `s[..mid]` that was at most every later element stays so when both positions lie inside it. |
| ListOps.SortedPermutationUnique | main.py:141-148 | Two sorted permutations of the same multiset are equal. So the bubble-sort result is the only correct answer, which gives `[1,2,3]` for `[3,2,1]`. |
| ListOps.FilterEven | main.py:165-166 | The comprehension's result is an in-order subsequence of the input, and all of its elements are even. |
| ListOps.FilterEvenCounts | main.py:166 | Every even value occurs in the result as often as in the input, and no odd value occurs. Together with the subsequence property, the result is exactly the even elements in their original order. |
| ListOps.EvenFilterUnique | main.py:166 | The filter's specification (in-order subsequence, only even elements, every even value as often as in the input) has exactly one solution, the comprehension's result. So the specification alone gives `[8,6]` for `[5,3,8,6,1,9]` and `[2,4]` for `[1,2,3,4,5]`. |
| ListOps.SumAppend | main.py:186 | The reference sum splits over concatenation. The left-to-right accumulation of `sum` relies on this. |
| ListOps.SumElements | main.py:185-186 | Python's `sum` accumulates from 0, left to right. The result equals the arithmetic sum of all elements (the reference sum, which is 0 for an empty list). |
| ListOps.MaxValue | main.py:205-206 | Python's `max` fails exactly on the empty list. Otherwise it returns an element of the list that is at least every element. |
| ListOps.BinarySearch | main.py:226-240 | A reported hit is a valid index that holds the target, even on unsorted input. A miss reports index -1. On sorted input, the search reports a hit exactly when the target occurs. Every probe is in bounds, and the loop ends because `right - left` shrinks. |
| Tokens.CreateAccessToken | main.py:45-49 | The issued token decodes (under the signer assumption) to exactly the claims `sub` = the username and `exp` = issue time + 30 * 60 seconds. |
| Tokens.GetCurrentUser | main.py:117-124 | The gate returns the subject exactly when the token decodes, is not expired and has a `sub`. A bad signature, a malformed payload, expiry and a missing `sub` all give the same `InvalidToken` (401). |
| Tokens.TokenValidityWindow | main.py:46-48 | An issued token authenticates its subject at every clock value before issue time + 30 minutes, and is rejected with `InvalidToken` from then on. |
| Credentials.Register | main.py:92-97 | A taken username fails with `UserExists` (400) and the store is unchanged. Otherwise the store gains exactly that username, mapped to a hash of the password, and no other record changes. |
| Credentials.RegisterTwice | main.py:92-93 | A second registration of a username fails, whatever its password, and the first hash stays. |
| Credentials.Login | main.py:67-72 | Login succeeds exactly when the username has a record and the password verifies against it. The token is issued now for that username. Both failure causes give `InvalidCredentials` (401). |
| Credentials.LoginFailuresIndistinguishable | main.py:67-70 | An unknown username and a wrong password get the identical response. |
| Credentials.RegisterThenLogin | main.py:67-72 | After a successful registration, login with the same password succeeds. Its token authenticates the username at the gate for 30 minutes and no longer. |
| Credentials.RegisterKeepsOtherLogins | main.py:95-96 | Registering one username does not change the outcome of logging in as any other username. |
| Service.Handle | main.py:126-240 | A token the gate rejects gives exactly `InvalidToken`, whatever the request, and no operation result is observable. With an accepted token, the only failure is max on an empty list. Every successful reply answers its request as the list operations' specifications require. |

## Left out

- FastAPI routing, pydantic validation and `TestClient` are left out. A request without a `token` query parameter is refused by the framework before the endpoint runs. Test `test_bubble_sort_no_token` only asserts "not 200".
- Exceptions are modelled as `Response` values. `HTTPException` plumbing is reduced to the `StatusCode`/`Detail` table.
- The unused `Token` response class is left out. So are `oauth2_scheme`'s header handling and the `token_type` field, which `login` never returns.
- bcrypt is left out: the cost factor, the salt format and constant-time comparison. It is an abstract `Hasher`. No collision resistance is assumed. So the model does not prove that a *different* password fails login after registration.
- The JWT encoding, HMAC-SHA256 signing and signature check are left out. They are an abstract `Signer`. Tamper detection is not claimed: that one changed character breaks the signature is a property of HMAC, not of this code. The decoder accepts only HS256 (`algorithms=[ALGORITHM]`, main.py:118); that check is part of the abstract `Signer.decode`, whose None covers a wrong algorithm as well as a bad signature.
- PyJWT checks other registered claims (`nbf`, `iat`, `aud`; `iss` only when an issuer is passed, which main.py:118 does not) and, in some versions, the type of `sub`. Tokens issued here carry none of these, so those checks are left out. `sub` is modelled as an optional string.
- `datetime.utcnow()` and `timedelta` are replaced by an integer clock in seconds. PyJWT truncates the expiry datetime to whole seconds, which this clock matches.
- Concurrency is left out: the async handlers, and whether two concurrent `register` calls for one name are atomic. Each call is one atomic step on a store value.
- Tokens.GetCurrentUser: there is no check on the issue time, because the code sets neither `iat` nor `nbf`. So a token also authenticates at clock values before it was issued. The validity window is `now < issue + 30 min`, not `[issue, issue + 30 min)`.
- Credentials.Register: the code does not require a non-empty username, and neither does the model.
- ListOps.MaxValue: on an empty list the code raises `ValueError`, which the framework answers with 500. The model returns `None`, and `Service.Handle` maps it to `EmptySequence` with status 500. There is no dedicated "empty input" client error.
- ListOps.BinarySearch: when the target occurs more than once in a sorted list, the contract does not say which of its indices is returned. It is the first `mid` probe that hits.
