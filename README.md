# PostNL service base: response classification, routing and caching

This project models the shared base class of the PostNL API client's services
(`src/Service/AbstractService.php`) and the promise `AggregateException`. It proves
properties of that model in Dafny.

The base class does four things for every service:

- **Classifying REST responses** (`validateRESTResponse`). A JSON-decoded body is checked
  against six upstream error shapes in a fixed order:
  1. an API-key fault;
  2. a SOAP fault leaked through JSON;
  3. `Errors.Error` as a list;
  4. `Errors` as a collection;
  5. the legacy `Array.Item.ErrorMsg`;
  6. `ResponseShipments[0].Errors`.

  The first shape that matches decides the exception. When none matches, the body is valid.
- **Classifying SOAP responses** (`validateSOAPResponse`). It checks for a SOAP fault text
  first, then for CifException `ExceptionData` nodes.
- **Unwrapping responses** (`getResponseText`). It turns a settled-promise array, a Guzzle
  response or an `HttpClientException` into body text, or throws.
- **Cache policy and routing.** This covers the cache key and when the pool is asked
  (`retrieveCachedItem`), the expiry set on a stored item (`cacheItem`), removal, the
  ttl/cache accessors, the choice between `…Rest` and `…Soap` method variants (`__call`),
  and the recursive current-service walk over entities (`setService`).

Modules, one per file:

- `Wrappers`: Option, Result and Outcome. An Outcome is `Pass`, the source's `return true`,
  or `Fail(e)`, a thrown exception.
- `PhpValues`: decoded JSON as a datatype, and the PHP operators the classifiers use on it:
  property access, `isset`, `empty`, `foreach`, `(int)`, `(string)`, `strtolower`, and the
  `substr` that strips "Service".
- `Errors`: the exceptions as one datatype. A CifException carries its
  `{description, message, code}` records.
- `Responses`: `getResponseText`.
- `RestValidation`: `validateRESTResponse`. These are pure functions: the source builds its
  records with `foreach` appends and has no other effect than throwing.
- `SoapValidation`: `validateSOAPResponse`, over the results of its XPath queries.
- `Routing`: REST/SOAP selection and `__call`.
- `Caching`: the ttl, a PSR-6 item class with separate absolute and relative expiry setters,
  a map-backed pool class, and the cache key.
- `Entities`: the entity objects, kept in a store indexed by object identity. Shared
  children are one entity, updated in place.
- `Services`: the `Service` class with the fields `cache` and `ttl` and the stateful methods.
- `Promises`: the `AggregateException` constructor.

PHP edge cases follow PHP 7 semantics:

- Reading a property of a non-object gives null.
- `get_object_vars` of a non-object gives null, so a leaked fault's message is `'Unknown'`.
- `array_keys(null)` in `setService` walks nothing.
- `(string)` of an object cannot succeed: PHP 7 stops with a recoverable fatal error and
  PHP 8 throws an `Error`. Under either version classification does not return; the model
  shows both as `ServiceError.StringConversion`.

Points where the code's behaviour is easy to misread:

- The cache key is `uuid + "rest"|"soap" + lowercase(short name minus "Service")`, in that
  order.
- In the `Errors.Error` list form, an entry without `ErrorMsg` gets a null message and takes
  its code from `ErrorNumber`. It does not fall back to `Error`/`Code`; only the collection
  form does.
- A leaked SOAP fault's message is the Text object's member named `""`. If that member is
  missing, the message is `'Unknown'`.
- A body that is not JSON decodes to null. It matches no shape, so it counts as valid.

## Model

| member | source | states |
|---|---|---|
| `Responses.GetResponseText` | src/Service/AbstractService.php:323-350 | A Guzzle Response gives its body. An HttpClientException gives its inner response's body. It is rethrown unchanged when it has no `getResponse`, no inner response, or one of its own class. Anything else raises ResponseException 'Unknown response type'. |
| `Responses.SettlementPrecedence` | src/Service/AbstractService.php:326-332 | In a settlement array, `reason` wins over `value`. The unwrapping happens once, so a nested array is an unknown response type. |
| `Responses.ResponseTextProvenance` | src/Service/AbstractService.php:334-349 | Nothing is invented. A text is the body of a response found in the input. An exception is either the input's own HttpClientException or 'Unknown response type'. |
| `RestValidation.ClassifyRestBody` | src/Service/AbstractService.php:204-274 | Passes exactly when none of the six shapes matches. An API-key fault always gives InvalidConfigurationException('Invalid Api Key'). Otherwise a leaked fault text gives CifDownException with the Text's `""` member or 'Unknown'. Only shapes 3-6 give a CifException or a cast Error. |
| `RestValidation.ValidateRestResponse` | src/Service/AbstractService.php:202-204 | An exception from reading the body propagates unchanged. Otherwise the decoded text is valid exactly when it matches no shape. |
| `RestValidation.UndecodableBodyPasses` | src/Service/AbstractService.php:204-274 | A body that decodes to null is valid. |
| `RestValidation.ApiKeyFaultWins` | src/Service/AbstractService.php:206-208 | A `fault.faultstring` of "Invalid ApiKey" raises the configuration exception whatever other properties the body has. |
| `RestValidation.FaultMessage` | src/Service/AbstractService.php:209-212 | The CifDown message is never null. It is the `""` member when that is set, else "Unknown". |
| `RestValidation.StringOrNull` | src/Service/AbstractService.php:225-226 | `isset ? (string) : null`. An unset value gives null. A set value gives its string cast. Only an object fails the cast. |
| `RestValidation.EntryRecord` | src/Service/AbstractService.php:216-247 | The record for one iterated entry. Its only failure is a string-cast Error. |
| `RestValidation.Records` | src/Service/AbstractService.php:214-249 | On success: one record per entry, in input order, record i being entry i's. On failure: the error of the first failing entry, with every earlier entry converted. |
| `RestValidation.IteratedShapeClassification` | src/Service/AbstractService.php:214-249 | Without a fault, the `Errors.Error` list form takes precedence over the `Errors` collection form. Each raises the records of its own entries. |
| `RestValidation.IteratedShapeRecords` | src/Service/AbstractService.php:214-249 | In both iterated forms the CifException holds exactly one record per entry. An entry with `ErrorMsg` uses it as both message and description, with code `(int) ErrorNumber` or 0. |
| `RestValidation.IteratedShapeRaisesCif` | src/Service/AbstractService.php:214-249 | A CifException is raised whenever no entry's `Description` or `Error` is an object. |
| `RestValidation.RecordsSucceed` | src/Service/AbstractService.php:216-247 | No string cast fails when no entry's `Description` or `Error` is an object. |
| `RestValidation.ListEntryWithoutErrorMsg` | src/Service/AbstractService.php:223-228 | In the list form, an entry without `ErrorMsg` gets description = `(string) Description` or null, a null message, and code from `ErrorNumber` or 0. |
| `RestValidation.CollectionEntryWithoutErrorMsg` | src/Service/AbstractService.php:241-246 | In the collection form, an entry without `ErrorMsg` falls back to `Description`, `Error` and `Code`. |
| `RestValidation.LegacyShapesSingleRecord` | src/Service/AbstractService.php:250-272 | Each legacy shape gives exactly one record. `Array.Item.ErrorMsg` has code 0. The first shipment error's `Description` is used as message, description and int-cast code. |
| `RestValidation.SingleListedError` | src/Service/AbstractService.php:214-231 | `{"Errors":{"Error":[{"ErrorMsg":"X","ErrorNumber":5}]}}` raises one record with message "X" and code 5. |
| `SoapValidation.ValidateSoap` | src/Service/AbstractService.php:287-309 | Passes exactly when there is no fault text and no ExceptionData node. A fault raises CifDown with the first text. Otherwise there is one record per node, and each is the document-wide first Description/ErrorMsg/ErrorNumber. |
| `SoapValidation.FirstText` | src/Service/AbstractService.php:300-301 | `(string) $matches[0]` is the first match, or "" when there is none. |
| `SoapValidation.DocumentWideQueriesRepeatFirstNode` | src/Service/AbstractService.php:300-302 | A document with two ExceptionData nodes (A/a/1 and B/b/2): as written, both records are A/a/1. |
| `SoapValidation.ValidateSoapPerNode` | src/Service/AbstractService.php:294-306 | Corrected reading: record i comes from node i's own children. Faults and the pass case are as in `ValidateSoap`. |
| `SoapValidation.SingleNodeReadingsAgree` | src/Service/AbstractService.php:294-306 | With a single ExceptionData node, and these elements only inside nodes, the as-written and corrected readings agree. |
| `Routing.ResolveMethod` | src/Service/AbstractService.php:117-132 | Prefers `name + Rest/Soap`, then the plain `name`. Method names are matched case-insensitively. InvalidMethodException "`Class::name` is not a valid method" is raised exactly when neither exists. |
| `Routing.RestOnlyServicesNeverUseSoap` | src/Service/AbstractService.php:119-122 | The shipping and shipping-status services never reach a `…Soap` variant, whatever the client's mode. |
| `Routing.PlainMethodServesBothModes` | src/Service/AbstractService.php:124-128 | A method declared only without a suffix is reached in both modes. |
| `Services.Service.Call` | src/Service/AbstractService.php:117-132 | `__call` on a service resolves with REST when the client's mode is REST or the service is REST-only. |
| `Caching.CacheKey` | src/Service/AbstractService.php:371-375 | The key is the lookup key, then the 4-character mode tag, then the lower-cased short name without its last 7 characters. |
| `Caching.CacheKeyInjective` | src/Service/AbstractService.php:371-375 | Within one service, different lookup keys or different protocols never share a cache key. |
| `Services.Service.RetrieveCachedItem` | src/Service/AbstractService.php:363-382 | A non-string key gives null, with no lookup. Otherwise the pool is asked for the derived key exactly when a pool and a ttl are both set. |
| `Caching.ExpiryModesExclusive` | src/Service/AbstractService.php:393-403 | A ttl never gives both expiry modes. It gives exactly one whenever it is set, carrying the ttl's value. |
| `Services.Service.CacheItem` | src/Service/AbstractService.php:391-406 | An int/DateInterval ttl leaves only the relative expiry. A DateTime ttl leaves only the absolute expiry. Null leaves neither. The item is saved exactly once under its key, and nothing else in the pool changes. |
| `Services.Service.RemoveCachedItem` | src/Service/AbstractService.php:417-420 | The item's key is gone from the pool, and the other entries are unchanged. |
| `Services.Service.GetTtl` | src/Service/AbstractService.php:427-430 | Returns the ttl. |
| `Services.Service.SetTtl` | src/Service/AbstractService.php:439-444 | Sets the ttl, keeps the cache, and returns the service itself. |
| `Services.Service.GetCache` | src/Service/AbstractService.php:451-454 | Returns the pool. |
| `Services.Service.SetCache` | src/Service/AbstractService.php:463-468 | Sets the pool, keeps the ttl, and returns the service itself. |
| `Services.Service.constructor` | src/Service/AbstractService.php:100-105 | Stores the client, the pool and the ttl. |
| `Services.Service.SetService` | src/Service/AbstractService.php:145-173 | Returns false for a non-entity and changes nothing. For an entity it returns true, and exactly the entities reached through relevant properties get this service's name (its short name minus "Service"). |
| `Services.Service.TagProperties` | src/Service/AbstractService.php:159-170 | The loop over an entity's relevant property names tags exactly what those properties reach. |
| `Services.Service.TagValue` | src/Service/AbstractService.php:160-169 | An entity value is walked. An array value has each entity element walked. Anything else is skipped. |
| `Services.Service.TagItems` | src/Service/AbstractService.php:163-168 | The loop over an array property tags exactly what its entity elements reach. |
| `Entities.EntityGraph.SetCurrentService` | src/Service/AbstractService.php:157 | Tags one entity and leaves the others as they were. |
| `Entities.EntityGraph.ReachInGraph` | src/Service/AbstractService.php:159-170 | The walk only reaches entities of the graph. |
| `Entities.EntityGraph.ReachCoversProperties` | src/Service/AbstractService.php:159-162 | Whatever a relevant property reaches is reached from the entity. |
| `Entities.EntityGraph.ReachItemsCovers` | src/Service/AbstractService.php:163-168 | Every entity element of an array property is reached, with everything it reaches. |
| `Entities.MarkIdempotent` | src/Service/AbstractService.php:145-173 | Tagging the same entities twice is the same as tagging them once, so repeating `setService` changes nothing. |
| `PhpValues.PrefixSubstr` | src/Service/AbstractService.php:156 | `substr($s, 0, $length)` is a prefix of `$s`. A non-negative length keeps that many characters, capped at the string's length. A negative length omits that many from the end, leaving "" when it omits them all. |
| `PhpValues.Stem` | src/Service/AbstractService.php:156 | The short name minus its last 7 characters when it has at least 7. A name of 4 to 6 characters keeps its first 2·len−7 characters, and a shorter one gives "". |
| `PhpValues.StemOfServiceName` | src/Service/AbstractService.php:156 | A class named `<name>Service` has the stem `<name>`. |
| `PhpValues.ShortNameStems` | src/Service/AbstractService.php:375 | "Abcdef" stems to "Abcde", "Abcd" to "A", and "Abc" to "". |
| `PhpValues.LowerAscii` | src/Service/AbstractService.php:375 | `strtolower` keeps the length and lower-cases each ASCII letter. |
| `PhpValues.ToStr` | src/Service/AbstractService.php:225-226 | `(string)` fails exactly on an object. It keeps a string, and an int cast to string reads back as that int. |
| `PhpValues.IntStringRoundTrip` | src/Service/AbstractService.php:221 | `(int)(string) $i == $i`. |
| `PhpValues.DecimalRoundTrip` | src/Exception/Promise/AggregateException.php:44 | `%d` of a count is a non-empty digit string without leading zero that reads back as the count. |
| `Promises.NewAggregateException` | src/Exception/Promise/AggregateException.php:40-46 | The reasons are forwarded unchanged. The message starts with `msg`, followed by "; ", then the count in `%d` form (digits, no leading zero), which equals the number of reasons, then " rejected promises". |
| `Promises.PaddedCountRejected` | src/Exception/Promise/AggregateException.php:44 | A zero-padded count such as "05" is not the layout `%d` writes. |
| `Promises.NoReasonsMessage` | src/Exception/Promise/AggregateException.php:44 | With no reasons the message is `msg + "; 0 rejected promises"`. |
| `Promises.MessageDeterminesCount` | src/Exception/Promise/AggregateException.php:44 | Two batches with the same `msg` and the same message have the same number of reasons. |

## Findings

| source | as written | input that shows it | evidently intended | confidence | as-written member | corrected member |
|---|---|---|---|---|---|---|
| src/Service/AbstractService.php:300-302 | The sub-queries start with `//`, so they search the whole document. Every ExceptionData record gets the document's first Description, ErrorMsg and ErrorNumber. | Two ExceptionData nodes with texts A/a/1 and B/b/2 give the records A/a/1 and A/a/1. | One record per node, read from that node's own children: A/a/1 and B/b/2. | medium; not executed | `SoapValidation.DocumentWideQueriesRepeatFirstNode` | `SoapValidation.ValidateSoapPerNode` |

## Left out

- JSON decoding: `ValidateRestResponse` takes the decoder as a parameter. Text that is not JSON decodes to null.
- SimpleXML parsing and XPath evaluation: a SOAP document is given by the results of its queries.
- `registerNamespaces`: namespace registration is part of the XPath machinery.
- Guzzle stream reading: a response is given by its body text.
- Reflection: the called class name, the short name, the service family and the declared method names are inputs (`ServiceInfo`, the `methods` set). The `ReflectionException` branch of `setService` cannot arise for the called class and is not modelled.
- `call_user_func_array`: `Service.Call` returns the name of the method it would forward to and does not run it.
- The PSR-6 pool's internals: no eviction on expiry, no clock, and no DateInterval arithmetic. A DateInterval is kept as its duration text and a DateTime as a Unix timestamp.
- `defaultDateFormat`: date formatting is delegated to the XML writer.
- JSON floating-point numbers are not in the `Json` datatype.
- A decoded object is a property list. Lookup takes the first property of a name; `json_decode` yields distinct names.
- PHP 8 behaviour: under PHP 8, `get_object_vars` of a non-object and `array_keys(null)` throw TypeError. The model follows PHP 7, which gives null and walks nothing.
- The order of keys inside a record's PHP array is not modelled.
- `PhpValues.StringToInt`: reads an optional sign and leading decimal digits only. Leading whitespace, exponent and fraction forms, and saturation at `PHP_INT_MAX` are not modelled.
- `Services.Service.CacheItem`: requires a pool to be set. The source calls `save` on it unconditionally, which fails on null.
- `Services.Service.RemoveCachedItem`: requires a pool to be set, for the same reason.
- `Services.Service.SetService`: requires every property value an entity holds in `values` to rank below the entity, for every service alike. PHP recurses without end only on a cycle through the properties this service walks, so a graph that has a cycle only through properties the walk never reads is outside the model; such properties must be left out of `values`.
- The `HttpClientException` class, the `RejectionException` parent and `PostNL.php` are not part of this model. Of the client, only its mode is modelled, and only REST mode is told apart.
