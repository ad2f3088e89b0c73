# Salesforce provider: a Dafny model

This project models the core of a Terraform provider for Salesforce. It covers two layers.

**The REST client** (`Salesforce` module):
- `NewClient` stores the API host and version, and stores the six OAuth 2.0 password-grant credentials when all six are present.
- When they are, it runs the token exchange once. `GetBearerToken` writes the five form fields `client_id`, `client_secret`, `grant_type`, `username` and `password` into a multipart form and POSTs it to the auth host.
- The token exchange fails only when the request cannot be sent. A non-200 status, a body cut short and a body that does not decode are all swallowed, and the decoded `access_token` (possibly empty) becomes the bearer token.
- `DoRequest` sets `Authorization: Bearer <token>` and sends the request. It returns the body only for a complete 200 response; any other status becomes an error reading `status: <code>, body: <body>`.
- `GetDescription` GETs `<host>/services/data/<version>/sobjects/<object>/describe` and decodes the body into a `Description`: name, label and fields in order.

**The provider** (`Provider` module):
- `Configure` first stops on any error from reading the provider block.
- Next it reports every setting whose configured value is unknown, all of them, and stops if there were any.
- It then resolves each setting: the `SALESFORCE_*` environment variable, overridden by a non-null configured value.
- It reports every setting that resolved to `""` and stops if there were any.
- Otherwise it builds the client with all eight values and hands the same client to data sources and to resources. A failed token exchange becomes one "Unable to Create Salesforce API Client" error instead.
- The `salesforce_description` data source adopts that client in its `Configure`. Its `Read` fetches the named object's description and stores the fields in order, a placeholder id, and the fetched name and label.

Since `Configure` always passes all eight values to `NewClient`, the unauthenticated client (credentials missing) is never built by the provider. It is reachable only by calling `NewClient` directly.

Modelling choices:
- The network is a parameter: `Transport`, a function from the message on the wire to its outcome.
- `json.Unmarshal` is a `Decoder` parameter that returns the record as far as it was filled plus the failure, if any.
- The random multipart boundary is a parameter.
- The process environment is a map.
- The diagnostics texts the provider writes sit in one value, `ProviderMessages`. The collection and ordering proofs hold for any `Messages` whose setting errors are errors on the setting's own attribute (`Messages.Valid`). `Configure` is `ConfigureWith(ProviderMessages, …)`.

## Model

| member | source | states |
|---|---|---|
| Fmt.FormatNat | internal/salesforce/client.go:171 | `%d` of a status code is a non-empty run of decimal digits with no leading zero |
| Fmt.DecimalValueOfFormat | internal/salesforce/client.go:171 | reading back the digits `%d` printed gives the printed code |
| Framework.ContainsErrorAppend | internal/provider/provider.go:109-111 | after appending diagnostics, HasError holds exactly when the old list or the appended one holds an error |
| Framework.Diagnostics.AddAttributeError | internal/provider/provider.go:118-123 | adds exactly one error attached to the given attribute path, after the existing diagnostics |
| Framework.Diagnostics.AddError | internal/provider/provider.go:341-346 | adds exactly one error with no attribute, after the existing diagnostics |
| Framework.Diagnostics.Append | internal/provider/provider.go:108-109 | the given diagnostics follow the existing ones, in order |
| Http.FormDataContentTypeNamesBoundary | internal/salesforce/client.go:125 | the token request's Content-Type is multipart/form-data and its boundary parameter reads back as the writer's boundary; the value is quoted exactly when the boundary holds a special character |
| Http.Request.constructor | internal/salesforce/client.go:116-120 | a new request has the given method, URL and body and an empty header |
| Http.Request.SetHeader | internal/salesforce/client.go:155 | the key gets exactly the new value and every other header keeps its own |
| Http.FormWriter.constructor | internal/salesforce/client.go:68-69 | a new writer has the given boundary, no fields written and is open |
| Http.FormWriter.WriteField | internal/salesforce/client.go:71-78 | a field written to an open writer is appended after the fields already written, with its value verbatim |
| Http.FormWriter.Close | internal/salesforce/client.go:111-114 | closing the writer keeps the written fields unchanged |
| Salesforce.StatusMessageRoundTrip | internal/salesforce/client.go:170-172 | the text of a status error yields back both the status code and the literal body |
| Salesforce.FormValue | internal/salesforce/client.go:71-110 | a form has no value for a name exactly when no field carries that name |
| Salesforce.TokenFormNames | internal/salesforce/client.go:71-110 | the token form names `client_id`, `client_secret`, `grant_type`, `username`, `password`, in that order, each once |
| Salesforce.TokenFormCarriesCredentials | internal/salesforce/client.go:71-110 | each grant field carries its own credential verbatim; neither the auth host nor the bearer token is sent as a field |
| Salesforce.FormValueOfUniqueName | internal/salesforce/client.go:71-110 | a field whose name no other field shares is the one a lookup by that name finds |
| Salesforce.ExchangeFailsOnlyOnTransport | internal/salesforce/client.go:116-149 | the token exchange returns an error exactly when the request could not be sent, and then the token is empty |
| Salesforce.TokenIgnoresStatusAndFailures | internal/salesforce/client.go:135-149 | two responses with the same body give the same token and no error, whatever their status codes and read failures |
| Salesforce.GetBearerToken | internal/salesforce/client.go:66-150 | the form written, the message sent (POST to the auth host, multipart Content-Type) and the token returned are those of the token-exchange rule |
| Salesforce.BearerHeaderCarriesToken | internal/salesforce/client.go:155 | the Authorization value is `Bearer ` followed by the token verbatim |
| Salesforce.ClassifyReturnsBodyOnlyOn200 | internal/salesforce/client.go:157-174 | a request returns exactly one of body and error, and returns the body, unchanged, exactly for a fully read 200 response |
| Salesforce.NonOkStatusIsReported | internal/salesforce/client.go:170-172 | a complete non-200 response is an error carrying its status code and literal body, both recoverable from its text |
| Salesforce.DescribeUrlEmbedsObject | internal/salesforce/descriptions.go:12-21 | the describe URL starts with the host, ends with `/describe` and carries the object name verbatim in between, so distinct objects never share a URL |
| Salesforce.FetchReturnsExactlyOne | internal/salesforce/descriptions.go:26-37 | on every path exactly one of description and error is returned |
| Salesforce.FetchPropagatesRequestError | internal/salesforce/descriptions.go:26-29 | a failed request is returned as it is, and the decoder plays no part |
| Salesforce.FetchReturnsDecodedDescription | internal/salesforce/descriptions.go:31-37 | after a 200 response a decode failure is returned as an error, and a clean decode yields its name, label and fields in order |
| Salesforce.DescribeSendsExchangedToken | internal/salesforce/client.go:58 | the token a successful exchange produced is the one sent as `Bearer <token>` on describe requests |
| Salesforce.Client.constructor | internal/salesforce/client.go:38-42 | a new client has the host, version and HTTP client set and zero credentials |
| Salesforce.Client.DoRequest | internal/salesforce/client.go:152-176 | sets the bearer header on the request, keeping its other headers, and returns the classification of what the client's transport gave back |
| Salesforce.Client.GetDescription | internal/salesforce/descriptions.go:10-37 | the result is that of sending the describe GET with the client's own host, version and token and decoding the body; exactly one of description and error |
| Salesforce.NewClient | internal/salesforce/client.go:36-64 | with a credential missing, an unauthenticated client; otherwise a client with the credentials and the exchanged token, or no client and the exchange's error |
| Provider.AttributeNamesDistinct | internal/provider/provider.go:117-187 | distinct settings are reported on distinct attribute paths |
| Provider.ConfigOverridesEnvironment | internal/provider/provider.go:196-235 | a non-null configured value wins, even `""`, and makes the environment irrelevant; a null one falls back to the variable, or to `""` when it is unset |
| Provider.ProviderMessagesValid | internal/provider/provider.go:117-187 | every setting error the provider writes is an error on that setting's attribute, and the client error is an error on no attribute |
| Provider.SettingErrorsAttached | internal/provider/provider.go:240-318 | every setting error of valid messages lands on its setting's own attribute |
| Provider.ReportIsErrors | internal/provider/provider.go:189-191 | a list of setting reports holds an error exactly when it is non-empty, and is empty exactly when no checked setting is flagged |
| Provider.ReportCountsOnePerFlagged | internal/provider/provider.go:117-187 | checks are not fail-fast: every flagged setting gets exactly one error on its attribute, every other attribute none |
| Provider.ReportNamesFlagged | internal/provider/provider.go:240-318 | a setting's error appears in the report exactly when that setting is flagged |
| Provider.CountAtAppend | internal/provider/provider.go:109 | per attribute path, the count of diagnostics (of any severity) on a concatenation is the sum of the counts on its halves |
| Provider.SettingsListed | internal/provider/provider.go:117-187 | each of the eight settings is checked, and none twice |
| Provider.UnknownReportedOncePerSetting | internal/provider/provider.go:117-187 | every unknown setting is reported exactly once on its attribute; a null or known one is not reported |
| Provider.MissingReportedOncePerSetting | internal/provider/provider.go:240-318 | every setting resolving to `""` is reported exactly once on its attribute, whatever the other settings are |
| Provider.MissingUsernameReportedOnce | internal/provider/provider.go:300-308 | no username configured and SALESFORCE_USERNAME unset gives exactly one error on `username` |
| Provider.ReportOfSettingsIsErrors | internal/provider/provider.go:189-191 | a phase of checks stops Configure exactly when one of its settings is flagged |
| Provider.ResolveSettings | internal/provider/provider.go:196-235 | each value is its environment variable, replaced by the configured value unless that is null |
| Provider.HandsOverExactlyWhenNoError | internal/provider/provider.go:339-353 | the client is handed over exactly when Configure ends with no error among its diagnostics |
| Provider.ConfigureStages | internal/provider/provider.go:108-322 | a prior error stops Configure as it is; unknown-value errors stop it with exactly those errors; a phase without errors added nothing |
| Provider.UnknownValuesStopConfigure | internal/provider/provider.go:117-191 | with an unknown value, earlier diagnostics are kept and each unknown setting gets one error, whatever the environment and the token exchange give |
| Provider.MissingValuesStopConfigure | internal/provider/provider.go:240-322 | with all values known but some resolving to `""`, each such setting gets one error, and the token exchange does not matter |
| Provider.SalesforceProvider.constructor | internal/provider/provider.go:24-29 | a provider reports the version it was made with |
| Provider.SalesforceProvider.Metadata | internal/provider/provider.go:53-56 | the provider's type name is `salesforce`, with its version |
| Provider.SalesforceProvider.DataSources | internal/provider/provider.go:359-363 | the only data source is the description data source |
| Provider.SalesforceProvider.Resources | internal/provider/provider.go:366-368 | the provider has no resources |
| Provider.SalesforceProvider.Configure | internal/provider/provider.go:103-356 | the diagnostics are the staged outcome (prior error, unknown values, missing values, client error); data are untouched unless the client is handed over; then both data hold the same fresh client, built from the resolved values with the exchanged token |
| Provider.SalesforceProvider.ConfigureWith | internal/provider/provider.go:103-356 | the same staged outcome for any messages that are errors on the right attributes |
| Provider.FieldModelsPreserveOrder | internal/provider/describe_data_source.go:138-146 | one state entry per fetched field, at the field's own position, with its name, label and type |
| Provider.StateFieldsOfFieldModels | internal/provider/describe_data_source.go:138-146 | the stored fields read back as the fetched fields |
| Provider.ReadStateRoundTrip | internal/provider/describe_data_source.go:138-150 | from a configuration without fields, the stored state holds exactly the fetched description, and the placeholder id |
| Provider.ReadStateIgnoresInputScalars | internal/provider/describe_data_source.go:117-150 | of the configuration only its fields reach the state; id, name and label are replaced |
| Provider.DescriptionDataSource.constructor | internal/provider/describe_data_source.go:22-24 | a new data source has no client |
| Provider.DescriptionDataSource.Configure | internal/provider/describe_data_source.go:32-52 | no provider data changes nothing; data that is not a client adds one error and keeps the client; a client is adopted as given |
| Provider.DescriptionDataSource.Metadata | internal/provider/describe_data_source.go:55-57 | the type name is the provider's type name followed by `_description` |
| Provider.DescriptionDataSource.Read | internal/provider/describe_data_source.go:116-158 | a failed fetch adds one error with the error's text and leaves the state unset; otherwise the state gets the fetched fields appended in order, the placeholder id, and the fetched name and label |
| Provider.DescriptionTypeName | internal/provider/describe_data_source.go:56 | the data source registers as `salesforce_description` |

## Left out

- The HTTP transport itself (timeouts of 5 and 10 seconds, redirects, TLS) is a function parameter. The token exchange's own `http.Client` and the client's `HTTPClient` are the same parameter.
- The byte encoding of the multipart body is left out: a body is its ordered list of form fields. The random boundary is a parameter.
- JSON decoding is a parameter that returns the partly filled record and the failure.
- Logging (`tflog`, `fmt.Printf`) is left out; it does not change any result.
- Schemas (`Schema` of the provider and of the data source) are left out; they are declarations with no logic.
- Errors from the multipart writer (`CreateFormField`, `io.Copy`, `Close`) on an in-memory buffer are left out; they cannot fail on a `bytes.Buffer`.
- A URL that `http.NewRequest` rejects is folded into a transport failure; both give an empty result and that error.
- Header key canonicalisation is left out: the keys used (`Content-Type`, `Authorization`) are already canonical.
- `Diagnostics` returned by `resp.State.Set` are left out: the framework's state encoding is not modelled, and the state is the stored value.
- Typed-nil provider data is representable as `ClientData(null)`, and the data source's `Configure` adopts it as Go does; the provider's `Configure` never hands it over, because it hands data over only when the client was built.
- Framework.Diagnostics.Append: duplicate diagnostics (equal to one already present) are not skipped, and neither are they in AddError and AddAttributeError; no call site in the provider can add a duplicate, since each setting's error has its own path and an error is only added when none is present.
- Provider.UnknownErrors, Provider.MissingErrors: each phase of eight `if` checks is modelled as appending the phase's list of errors in one step; the method does not spell out the eight separate appends.
- Salesforce.NewClient: requires the API host and version to be present, because the source dereferences them without a check (a nil pointer would panic).
- Provider.DescriptionDataSource.Read: requires a client, because with none the source dereferences a nil client and panics.
- Provider.SalesforceProvider.ConfigureWith: the provider's texts are passed in as `Messages`, so its contract holds for any valid texts; `Configure` fixes them to the source's texts.
- The missing-value detail says "Set the host value" for every setting except the username and password. The model reproduces this wording as written.
