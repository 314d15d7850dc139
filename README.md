# Export documentation portal — Dafny model

The portal serves companies of four kinds (factories, shippers, transporters and
clearance agents) and the people in them (owners, admins, accounts, logistics,
drivers). It has two halves, and this project models both.

The Express backend:

- renders HTML document templates by filling `{{ name }}` placeholders;
- sends the result by mail through a transport chosen once from the environment;
- registers and signs in users;
- guards routes with a bearer token;
- publishes the list of companies and their roles.

The React frontend:

- keeps the signed-in session and its role permissions;
- sends each company and role to its own dashboard;
- shows the dashboards, which search, page and export their sample lists;
- offers two documentation pages, which fill, preview and mail the shipping
  and clearance documents.

The model has one Dafny module per source file, plus shared modules:

| module | models |
|---|---|
| `Wrappers` | `Option`/`Result` |
| `JsStrings` | the JavaScript string primitives the code relies on |
| `Placeholders` | the left-to-right scan of `replace` with `/{{\s*([^}]+)\s*}}/g` |
| `Html` | the `<`/`>` escaper and the `<[^>]*>` tag remover |
| `ListView` | the search, page count, page slice, pager and CSV export the dashboards repeat |
| `FeatureCards` | the searchable feature catalogue |
| `DocTemplates` | what the two documentation pages share |
| `Http` | request and reply shapes of the backend handlers |

The form follows the code:

- Pure helpers are functions, each with the lemmas that relate it to a
  reference definition or to its inverse. Examples: render after escape,
  `parseInt` after `String`, an exported CSV read back.
- State the code mutates is a class whose methods say what the new state is:
  - the mail service's cached transport;
  - the user store;
  - the browser session;
  - the pager of a list;
  - the documentation pages' form state.
- Loops are methods with invariants, proved against the function that
  specifies them.
- Calls into libraries the model cannot see become parameters or function
  arguments: nodemailer, bcrypt, jsonwebtoken, mongoose, validator, `fetch`
  and the clock.

Two results carry across files:

- A token issued by `login` carries only the user's id. So `protect` gives the
  request a user without a role, and `POST /api/send/send` refuses with 403
  every send that passes its recipient and template checks.
- Of the two handlers registered for `POST /api/templates/send`, the first
  answers every request, with 400 or 500, because of the finding below. So
  the upload handler behind it never runs.

## Model

| member | source | states |
|---|---|---|
| JsStrings.Trim | frontend/src/pages/dashboards/clearanceAgents/DocumentationDashboard.jsx:291 | `trim`: the result has no whitespace at either end and is no longer than the input; TrimDropsOnlySpace and TrimKeepsNonSpace state what is removed |
| JsStrings.TrimDropsOnlySpace | frontend/src/pages/dashboards/clearanceAgents/DocumentationDashboard.jsx:291 | `trim` removes only whitespace, and only at the two ends |
| JsStrings.TrimKeepsNonSpace | frontend/src/pages/dashboards/clearanceAgents/DocumentationDashboard.jsx:291 | `trim` keeps every non-whitespace character, in order |
| JsStrings.TrimOfTrimmed | frontend/src/pages/dashboards/clearanceAgents/DocumentationDashboard.jsx:291 | `trim` leaves a key without surrounding whitespace unchanged |
| JsStrings.TrimSpaceAfter | frontend/src/pages/dashboards/clearanceAgents/DocumentationDashboard.jsx:291 | `trim` drops trailing whitespace after a word and keeps the word |
| JsStrings.ToLower | frontend/src/pages/dashboards/shipper/AdminDashboard.jsx:41 | `toLowerCase` keeps the length and lower-cases each letter in place |
| JsStrings.ToLowerIdempotent | frontend/src/context/AuthContext.jsx:23 | lower-casing twice is the same as lower-casing once |
| JsStrings.Split | frontend/src/pages/dashboards/clearanceAgents/AccountsDashboard.jsx:80 | `split` on one character: at least one piece, none holding the separator |
| JsStrings.SplitJoin | frontend/src/pages/dashboards/clearanceAgents/AccountsDashboard.jsx:80 | splitting a `join` on its separator returns the parts when no part holds it |
| JsStrings.NatToString | frontend/src/pages/dashboards/transporter/AdminDashboard.jsx:19 | `String(n)`: decimal digits with no leading zero whose value is `n` |
| JsStrings.IntToString | backend/src/utils/renderTemplate.js:4 | `String(i)` on an integer: digits, preceded by `-` exactly when negative, which `parseInt` reads back as `i` |
| JsStrings.ParseInt | backend/src/utils/emailService.js:11 | `parseInt(s, 10)` gives `NaN` exactly when no digit follows the whitespace and sign; ParseIntValue states the value read |
| JsStrings.ParseIntOfNatToString | backend/src/utils/emailService.js:11 | `parseInt` reads back every natural number `String` writes |
| JsStrings.ParseIntValue | backend/src/utils/emailService.js:11 | after leading whitespace and an optional sign, `parseInt` reads the longest digit run as a signed decimal and ignores the rest |
| JsStrings.ParseIntOfNegative | backend/src/utils/renderTemplate.js:4 | `parseInt` reads back `String(i)` for negative `i` |
| Placeholders.MatchLength | backend/src/utils/renderTemplate.js:9 | a match of `{{\s*([^}]+)\s*}}` starts with `{{`, ends with `}}` and holds a non-empty text without `}` |
| Placeholders.Tokenize | backend/src/utils/renderTemplate.js:9 | every match the global scan finds holds a non-empty text without `}` |
| Placeholders.Capture | backend/src/utils/renderTemplate.js:9 | the capture group drops leading whitespace, keeps trailing whitespace, and is never empty for a non-empty match |
| Placeholders.TokenizeRoundTrip | backend/src/utils/renderTemplate.js:9 | writing each match back in its place restores the scanned body |
| Placeholders.ExpandStep | backend/src/utils/renderTemplate.js:9 | text without `{` is copied, the placeholder is replaced, and the scan resumes behind it |
| Placeholders.ExpandNoMatch | backend/src/utils/renderTemplate.js:9 | without matches the replacement function plays no part in the output |
| Placeholders.ExpandUnmatchedBody | backend/src/utils/renderTemplate.js:9 | a body with no match comes out of any replacement unchanged |
| Placeholders.NoBraceNoMatch | backend/src/utils/renderTemplate.js:9 | a body without `{` has no match |
| Placeholders.TokenizeLiteral | backend/src/utils/renderTemplate.js:9 | text before a match that holds no `{` is scanned one character at a time |
| Placeholders.TokenizeHole | backend/src/utils/renderTemplate.js:9 | `{{raw}}` is matched whole and the scan resumes right behind it |
| Placeholders.CaptureClean | backend/src/utils/renderTemplate.js:9 | a key with no surrounding whitespace is its own capture |
| Placeholders.CaptureLeadingSpace | backend/src/utils/renderTemplate.js:9 | leading whitespace inside the braces is not captured |
| Placeholders.CaptureTrailingSpace | backend/src/utils/renderTemplate.js:9 | trailing whitespace inside the braces is captured with the key |
| Placeholders.ExpandAssembled | backend/src/utils/renderTemplate.js:9 | a body built from literal parts and named placeholders has its literal parts copied and exactly those names replaced |
| Html.EscapeAngles | frontend/src/pages/dashboards/clearanceAgents/DocumentationDashboard.jsx:283-286 | the `<`/`>`-only escaper leaves no angle bracket and changes text without one not at all; EscapeAnglesAt and EscapeAnglesRoundTrip state the per-character map |
| Html.EscapeAnglesAt | frontend/src/pages/dashboards/clearanceAgents/DocumentationDashboard.jsx:283-286 | `<` is written `&lt;`, `>` is written `&gt;` and any other character is copied, wherever it stands |
| Html.EscapeAnglesAppend | frontend/src/pages/dashboards/clearanceAgents/DocumentationDashboard.jsx:283-286 | the escape of a concatenation is the concatenation of the escapes |
| Html.EscapeAnglesRoundTrip | frontend/src/pages/dashboards/clearanceAgents/DocumentationDashboard.jsx:283-286 | on text without `&`, decoding `&lt;` and `&gt;` gives the text back |
| Html.EscapeAnglesConflates | frontend/src/pages/dashboards/clearanceAgents/DocumentationDashboard.jsx:285 | a raw `<` and the text `&lt;` escape to the same output |
| Html.EscapeAnglesKeepsAmpersand | frontend/src/pages/dashboards/clearanceAgents/DocumentationDashboard.jsx:285 | `&` passes through unescaped |
| Html.RemoveTags | frontend/src/pages/dashboards/clearanceAgents/DocumentationDashboard.jsx:302 | `/<[^>]*>/g` removal keeps only characters of the input and leaves no `<` followed later by `>` |
| Html.RemoveTagsNoTag | frontend/src/pages/dashboards/clearanceAgents/DocumentationDashboard.jsx:302 | text without `<` is kept |
| Html.RemoveTagsUnclosed | frontend/src/pages/dashboards/clearanceAgents/DocumentationDashboard.jsx:302 | text without `>` is kept: an unclosed `<` is not a tag |
| Html.RemoveTagsTag | frontend/src/pages/dashboards/clearanceAgents/DocumentationDashboard.jsx:302 | a tag is deleted whole, the text before it kept, and the scan goes on behind it |
| TemplateRender.Lookup | backend/src/utils/renderTemplate.js:10 | `values?.[key]` is defined exactly for the keys present |
| TemplateRender.ReplaceAll | backend/src/utils/renderTemplate.js:4 | a global one-character replace removes the character when the replacement lacks it, and changes nothing when the input lacks it |
| TemplateRender.EscapeHtmlIsPerCharacter | backend/src/utils/renderTemplate.js:4 | the three chained replaces, `&` first, escape each character exactly once |
| TemplateRender.EscapeEachSafe | backend/src/utils/renderTemplate.js:4 | escaped text holds no `<` or `>` and each `&` starts `&amp;`, `&lt;` or `&gt;` |
| TemplateRender.EscapeHtmlRoundTrip | backend/src/utils/renderTemplate.js:4 | decoding the three entities gives back the original text: escaping loses nothing |
| TemplateRender.SafeEscapeValue | backend/src/utils/renderTemplate.js:2-5 | `null`/`undefined` give `""`; any other value escapes to text that decodes to `String(value)` and holds no `<` or `>` |
| TemplateRender.SafeEscapeValuePlain | backend/src/utils/renderTemplate.js:4 | text without `&`, `<`, `>` is unchanged by escaping |
| TemplateRender.ValueOrEmpty | backend/src/utils/renderTemplate.js:10 | an absent or `null` key reads as `""`, any other key as its value |
| TemplateRender.Replacement | backend/src/utils/renderTemplate.js:9-12 | a match whose captured key is absent or null becomes `""`; a present non-null value becomes text that decodes to `String(value)`; no `<` or `>` survives |
| TemplateRender.RenderTemplate | backend/src/utils/renderTemplate.js:7-8 | an empty body renders as `""` |
| TemplateRender.RenderTemplateUnmatched | backend/src/utils/renderTemplate.js:9 | a body without placeholders is returned unchanged whatever the values |
| TemplateRender.RenderTemplateStep | backend/src/utils/renderTemplate.js:9-12 | literal text is copied, the placeholder replaced, and the rest rendered on its own: replacements are never rescanned |
| TemplateRender.RenderTemplateSingle | backend/src/utils/renderTemplate.js:9-12 | a body that is one placeholder renders as its replacement |
| TemplateRender.RenderTemplateNoRescan | backend/src/utils/renderTemplate.js:9-12 | a value that looks like a placeholder is emitted literally |
| TemplateRender.RenderTemplateMissingKey | backend/src/utils/renderTemplate.js:10 | a placeholder with an absent or null key renders as `""` |
| TemplateRender.RenderTemplateTrailingSpace | backend/src/utils/renderTemplate.js:9-10 | `{{ k }}` looks up `"k "` with its trailing whitespace, so it renders `""` when only `k` is supplied |
| TemplateRender.RenderTemplateAssembled | backend/src/utils/renderTemplate.js:9-12 | rendering a body assembled from literal parts and names fills exactly those names with their escaped values |
| TemplateRender.RemoveTagsLoose | backend/src/utils/renderTemplate.js:19 | the loose tag-stripping regex keeps only input characters, keeps a leading non-`<`, and leaves a `<` only at the end or before `>`; RemoveTagsLooseTag states which text survives |
| TemplateRender.RemoveTagsLooseNoTag | backend/src/utils/renderTemplate.js:19 | text without `<` is kept |
| TemplateRender.RemoveTagsLooseTag | backend/src/utils/renderTemplate.js:19 | a tag `<…>` is deleted whole, the text before it kept, and the scan goes on behind it |
| TemplateRender.RemoveTagsLooseUnclosed | backend/src/utils/renderTemplate.js:19 | a `<` with no `>` after it runs to the end of the text and is deleted with it |
| TemplateRender.RemoveTagsLooseEmptyTag | backend/src/utils/renderTemplate.js:19 | `<>` is not a tag: `[^>]+` needs one character |
| TemplateRender.CollapseSpaces | backend/src/utils/renderTemplate.js:20 | no two whitespace characters are adjacent afterwards, each one left is a space, and the non-whitespace characters are exactly those of the input, in order |
| TemplateRender.CollapseSpacesNoSpace | backend/src/utils/renderTemplate.js:20 | text without whitespace is kept |
| TemplateRender.CollapseSpacesWord | backend/src/utils/renderTemplate.js:20 | a word followed by a whitespace run becomes the word and one space |
| TemplateRender.StripHtml | backend/src/utils/renderTemplate.js:15-22 | an empty input gives `""`; no whitespace at the ends and no whitespace run; the non-whitespace characters are exactly those left by the tag regex, in order |
| TemplateRender.StripHtmlPlainText | backend/src/utils/renderTemplate.js:15-22 | text with no `<` and no whitespace passes through, entities undecoded |
| TemplateRender.StripHtmlElement | backend/src/utils/renderTemplate.js:15-22 | `<p>word</p>` gives `word` |
| TemplateRender.StripHtmlTwoWords | backend/src/utils/renderTemplate.js:15-22 | two words separated by any whitespace run come out joined by one space |
| EmailService.OrElse | backend/src/utils/emailService.js:11 | an option falls back to its default when it is unset or empty, and is kept otherwise |
| EmailService.Transport.constructor | backend/src/utils/emailService.js:19-28 | a transport holds the configuration it was created with |
| EmailService.DefaultPort | backend/src/utils/emailService.js:11 | without `MAIL_PORT` the port is 587 |
| EmailService.Configure | backend/src/utils/emailService.js:7-94 | explicit host gives `SmtpConfig`, else a SendGrid key gives `SendGridConfig`, else outside production the test account gives `EtherealConfig`, else an error; the test-account flag is set exactly on the Ethereal path |
| EmailService.SmtpConfig | backend/src/utils/emailService.js:18-28 | the configured host and port, `secure` exactly when `MAIL_SECURE` is `"true"`, credentials exactly when `MAIL_USER` is set, pooled, certificates checked only in production |
| EmailService.SendGridConfig | backend/src/utils/emailService.js:41-55 | SendGrid host, user `MAIL_USER` or `apikey`, the API key as password, port 587 when the parsed port is `NaN` or 0 |
| EmailService.EtherealConfig | backend/src/utils/emailService.js:71-78 | Ethereal host on port 587 with the generated account, no pool and no `tls` option |
| EmailService.ForcedFrom | backend/src/utils/emailService.js:108 | the sender is never empty |
| EmailService.ComposeMail | backend/src/utils/emailService.js:105-123 | production without `MAIL_FROM` fails first, then a recipient without `@`; a built message always has the forced sender |
| EmailService.AttachPreview | backend/src/utils/emailService.js:127-133 | the preview link is attached only when the lookup gives a non-empty string |
| EmailService.MailService.constructor | backend/src/utils/emailService.js:4-5 | the service starts with no transport and no test account |
| EmailService.MailService.CreateTransporter | backend/src/utils/emailService.js:7-94 | an existing transport is returned untouched; otherwise the configured transport is created and kept, or the error returned with no transport kept |
| EmailService.MailService.GetTransporter | backend/src/utils/emailService.js:96-99 | the transport is memoised: created on first use, reused afterwards |
| EmailService.MailService.SendMail | backend/src/utils/emailService.js:105-136 | a message is handed to the transport only once a transport exists and the checks pass, always from the forced sender; the delivery result gets the preview link attached |
| EmailService.MailService.VerifyTransporter | backend/src/utils/emailService.js:138-146 | the log says verified exactly when a transport exists and its verification succeeds; no failure escapes |
| Http.ValuesOrEmpty | backend/src/routes/templateRoutes.js:99 | absent form values read as the empty map, present ones unchanged |
| Http.FindById | backend/src/routes/templateRoutes.js:97 | `find` by id: nothing exactly when no template has the id, otherwise the first that has it |
| Http.TruthyPreview | backend/src/routes/templateRoutes.js:87 | a preview link is reported exactly when the transport returned a non-empty one |
| TemplateRoutes.ServerReplacement | backend/src/routes/templateRoutes.js:46-49 | an absent key becomes `""`, a `null` value the text `null`; a present value without `&` decodes back to `String(value)`; no angle bracket survives |
| TemplateRoutes.RenderTemplateServer | backend/src/routes/templateRoutes.js:44-45 | an empty body renders as `""` |
| TemplateRoutes.RenderServerUnmatched | backend/src/routes/templateRoutes.js:46 | a body with no placeholder is returned unchanged |
| TemplateRoutes.RenderServerStep | backend/src/routes/templateRoutes.js:46-49 | literal text copied, the placeholder replaced, the replacement never rescanned |
| TemplateRoutes.RenderServerSingle | backend/src/routes/templateRoutes.js:46-49 | a body that is one placeholder renders as its replacement |
| TemplateRoutes.RenderServerNull | backend/src/routes/templateRoutes.js:47-48 | a key present with `null` renders as `null`, unlike the client renderers |
| TemplateRoutes.RenderServerAbsent | backend/src/routes/templateRoutes.js:47 | an absent key renders as `""` |
| TemplateRoutes.RenderServerKeepsAmpersand | backend/src/routes/templateRoutes.js:48 | a `&` in a value is emitted raw |
| TemplateRoutes.StripHtml | backend/src/routes/templateRoutes.js:52-55 | an empty input gives `""`; text without `<` is unchanged; only input characters remain |
| TemplateRoutes.RemoveTagsPlain | backend/src/routes/templateRoutes.js:54 | text without `<` is left as it is |
| TemplateRoutes.StripHtmlKeepsWhitespace | backend/src/routes/templateRoutes.js:52-55 | whitespace around a tag survives: no collapsing, no trimming |
| TemplateRoutes.QuotationNames | backend/src/routes/templateRoutes.js:19-29 | the quotation body's placeholders are exactly date, to, company, items, total, notes |
| TemplateRoutes.InvoiceNames | backend/src/routes/templateRoutes.js:30-41 | the invoice body's placeholders are exactly date, invoiceNo, billTo, items, subtotal, tax, total |
| TemplateRoutes.RenderBuiltIn | backend/src/routes/templateRoutes.js:96-101 | each built-in body renders as its literal parts with its own fields filled, never as `""` |
| TemplateRoutes.RouteSubject | backend/src/routes/templateRoutes.js:61 | the request's subject when non-empty, otherwise `Document` |
| TemplateRoutes.AttachmentMail | backend/src/routes/templateRoutes.js:67-85 | the upload is both body and sole attachment, named `document.html` and typed `text/html` by default, from the forced sender |
| TemplateRoutes.AttachmentSkipsProductionCheck | backend/src/routes/templateRoutes.js:70 | the upload path sends from `no-reply@example.com` where `sendMail` would refuse for want of `MAIL_FROM` in production |
| TemplateRoutes.ErrorText | backend/src/routes/templateRoutes.js:113 | the error text is the error's message, or `send failed` when there is none, and is never empty |
| TemplateRoutes.SendRoute | backend/src/routes/templateRoutes.js:57-115 | 400 for a recipient without `@`; an upload goes straight to the transport; otherwise html, else the rendered template with its stripped text, else text, else 400 `No content to send`; 200 with the preview link on success, 500 with the error otherwise |
| TemplateRoutes.FirstHandlerAnswersAll | backend/src/routes/templateRoutes.js:9 | the handler registered first on `POST /send` answers every request with 400 or 500 and sends nothing |
| TemplateRoutes.UnknownTemplateIsNoContent | backend/src/routes/templateRoutes.js:97-98 | only `quotation` and `invoice` are found; any other id falls through to the content check |
| TemplateController.CheckRequest | backend/src/controllers/templateController.js:13-18 | no error exactly when the recipient holds `@` and a template id is given; otherwise 400 with the first failing check's message |
| TemplateController.SendTemplateEmail | backend/src/controllers/templateController.js:9-43 | as written: 400 exactly when a check fails, every other request 500 and nothing sent |
| TemplateController.Subject | backend/src/controllers/templateController.js:31 | the subject is the one given, else the template title, else `Document`, and is never empty |
| TemplateController.TemplateMail | backend/src/controllers/templateController.js:26-34 | the message carries the rendered body and its stripped text, to the requested recipient |
| TemplateController.SendTemplateEmailWith | backend/src/controllers/templateController.js:9-43 | with the lookup working: 400 on a failed check, 404 `Template not found` exactly for an unknown id, otherwise the template mail is sent and 200 or 500 follows the delivery |
| TemplateController.UndeclaredTemplatesNeverSend | backend/src/controllers/templateController.js:21 | whenever the checks pass and the template exists, the handler as written fails where the intended one sends |
| TemplateController.UndeclaredTemplatesExample | backend/src/controllers/templateController.js:21 | a concrete valid request to `quotation`: 500 as written, sent with subject `QUOTATION` as intended |
| SendController.PlainText | backend/src/controllers/sendcontroller.js:35 | the text part has no whitespace at the ends and holds only characters of the html; PlainTextKeepsText states which text survives |
| SendController.PlainTextKeepsText | backend/src/controllers/sendcontroller.js:35 | the text part is the html with its tags removed, minus whitespace at the two ends |
| SendController.PlainTextElement | backend/src/controllers/sendcontroller.js:35 | text wrapped in an element keeps only the text |
| SendController.TemplateMail | backend/src/controllers/sendcontroller.js:34-43 | to the requester, subject the one given, else the title, else `Document` (never empty), the rendered html and its plain text |
| SendController.SendTemplate | backend/src/controllers/sendcontroller.js:8-53 | 400 for an invalid recipient, then 400 for no template id, 403 unless the role is shipper or admin, 404 for an unknown template; otherwise the mail is sent and the reply is 200 with the info or 502 with the error |
| SendController.IssuedTokensCannotSend | backend/src/controllers/sendcontroller.js:21-25 | a user authenticated with a token from login or register has no role, so a send that passes the first checks is refused with 403 |
| AuthMiddleware.BearerToken | backend/src/middleware/authMiddleware.js:9-16 | the token is present exactly when the header starts with `Bearer `, and is the text after it |
| AuthMiddleware.FirstTruthy | backend/src/middleware/authMiddleware.js:22-26 | a claim falls back to its alternative (`sub` for `id`, `userRole` for `role`) when it is unset or empty, and is kept otherwise |
| AuthMiddleware.PrincipalOf | backend/src/middleware/authMiddleware.js:22-26 | the user's id is `id` or else `sub`, email only when non-empty, role `role` or else `userRole`, never an empty role |
| AuthMiddleware.Protect | backend/src/middleware/authMiddleware.js:8-32 | no token or an empty one is 401 `token missing`, a rejected token 401 `Token invalid`; otherwise the request proceeds with the user of the claims |
| AuthMiddleware.LowerCaseSchemeRejected | backend/src/middleware/authMiddleware.js:9-16 | `bearer t` carries no token: the scheme is case-sensitive |
| AuthMiddleware.SchemeOnlyRejected | backend/src/middleware/authMiddleware.js:9-16 | a header that is only `Bearer ` counts as a missing token |
| AuthMiddleware.IdOnlyClaimsHaveNoRole | backend/src/middleware/authMiddleware.js:22-26 | claims carrying only an id give a user without role or email |
| AuthController.EmailFormatExamples | backend/src/controllers/authController.js:11 | the registration email pattern accepts `a@b.co` and rejects `a@b`, `a@.co` and an address with a space |
| AuthController.RegisterCheck | backend/src/controllers/authController.js:7-12 | no error exactly when email, password, company and role are given, the email matches the pattern and the password has at least 6 characters; every error is 400, missing fields first ("Missing required fields"), then "Invalid email", then "Password must be at least 6 characters" |
| AuthController.FindEmail | backend/src/controllers/authController.js:13 | `findOne({ email })` finds nothing exactly when no user has the email, otherwise a stored user with it |
| AuthController.FindEmailUnique | backend/src/controllers/authController.js:13 | with unique emails a user is found by its own email |
| AuthController.UserStore.Register | backend/src/controllers/authController.js:5-23 | checks, then 400 for a known email, then the insert: 201 with a token signing only the new id exactly when a user was added, 500 on a database error, the store unchanged otherwise |
| AuthController.UserStore.Login | backend/src/controllers/authController.js:24-38 | 400 for missing credentials; 200 with a token for the found user exactly when the password matches; an unknown email and a wrong password get the same 401 |
| AuthController.RegisteredEmailFound | backend/src/controllers/authController.js:13-14 | an email already stored is found, so registering it again adds nothing |
| AuthController.RegisteredUserFound | backend/src/controllers/authController.js:16-17 | after registering a new email, emails stay unique and logging in with it finds the new user |
| DataController.GetCompanyRoleData | backend/src/controllers/dataController.js:1-10 | company compared first, then role, both case-insensitively; a missing company or role crashes; the welcome names the company and role of the URL |
| DataController.GetCompaniesRoles | backend/src/controllers/dataController.js:14-16 | the whole table of four companies |
| DataController.FromPrincipal | backend/src/middleware/authMiddleware.js:22-26 | the user `protect` sets has no name and no company |
| DataController.ProtectedRequestsCrash | backend/src/routes/dataRoutes.js:10 | behind `protect` the company is never set, so every dashboard-data request fails |
| DataController.CompaniesRolesDistinct | backend/src/config/roles.js:2-8 | company names are distinct and no company lists a role twice |
| AuthController.EmailFormatParts | backend/src/controllers/authController.js:11 | an address `a@d` with no other `@` matches the pattern exactly when `a` is non-empty, neither part holds whitespace, and `d` has a dot that is neither its first nor its last character |
| AuthContext.NormalizeRole | frontend/src/context/AuthContext.jsx:21-24 | a falsy role gives `""`; otherwise exactly the trimmed role lower-cased, with no whitespace at either end |
| AuthContext.LowerKeepsEnds | frontend/src/context/AuthContext.jsx:23 | lower-casing neither adds nor removes whitespace at either end |
| AuthContext.NormalizeRoleIdempotent | frontend/src/context/AuthContext.jsx:21-24 | a normalised role normalises to itself |
| AuthContext.GroupFrom | frontend/src/context/AuthContext.jsx:42-46 | the first alias group listing the role, or none exactly when no group lists it |
| AuthContext.RolePermits | frontend/src/context/AuthContext.jsx:32-51 | an empty role is granted nothing |
| AuthContext.Permits | frontend/src/context/AuthContext.jsx:32-51 | an empty normalised role is granted nothing |
| AuthContext.RoleHasPermission | frontend/src/context/AuthContext.jsx:32-51 | the loop over the alias groups answers exactly `Permits`: the first group listing the role decides |
| AuthContext.KeysAreAliases | frontend/src/context/AuthContext.jsx:26-48 | each table key lists itself as an alias, so the direct table lookup never grants anything new |
| AuthContext.UnrecognisedRoleNoPermission | frontend/src/context/AuthContext.jsx:42-50 | a role no alias group lists is granted nothing |
| AuthContext.GroupOfAlias | frontend/src/context/AuthContext.jsx:26-30 | the alias groups are disjoint: each alias belongs to exactly its own group |
| AuthContext.RoleGrants | frontend/src/context/AuthContext.jsx:26-51 | a role listed by an alias group gets exactly the permissions of that group; a role no group lists gets none |
| AuthContext.ManageTemplatesOnlyAdmin | frontend/src/context/AuthContext.jsx:36-40 | `manage_templates` is granted exactly to the admin aliases |
| AuthContext.SendDocsShipperOrAdmin | frontend/src/context/AuthContext.jsx:36-40 | `send_docs` and `export_docs` are granted exactly to the shipper and admin aliases |
| AuthContext.UseTemplatesAnyGroup | frontend/src/context/AuthContext.jsx:36-40 | `use_templates` is granted exactly to the aliases of the three groups |
| AuthContext.EffectiveRole | frontend/src/context/AuthContext.jsx:132 | the role is the `role` field when it is set and non-empty, otherwise the older `roleName` field |
| AuthContext.HasPermission | frontend/src/context/AuthContext.jsx:126-135 | no user has no permission; a `roles` array grants what some element grants; otherwise the effective role decides |
| AuthContext.EmptyRolesOverrideRole | frontend/src/context/AuthContext.jsx:129-131 | an empty `roles` array grants nothing, whatever `role` says |
| AuthContext.NoSendTemplate | frontend/src/context/AuthContext.jsx:137-149 | the context offers no `sendTemplate` |
| AuthContext.Session.constructor | frontend/src/context/AuthContext.jsx:54-62 | the session starts with the user and token restored from storage, passed in as its arguments |
| AuthContext.Session.Login | frontend/src/context/AuthContext.jsx:115-124 | no argument changes nothing; a `{user, token}` wrapper sets both; otherwise the object becomes the user and the token changes only when one is given |
| AuthContext.Session.SignOut | frontend/src/context/AuthContext.jsx:95-100 | user and token are cleared, after which no permission holds |
| ProtectedRoute.Guard | frontend/src/components/ProtectedRoute.jsx:4-14 | no user goes to `/login`; `Unauthorized` exactly when both props are given and company or role differs; otherwise the page |
| ProtectedRoute.GuardIsCaseSensitive | frontend/src/components/ProtectedRoute.jsx:9 | a role differing only in letter case is refused |
| ProtectedRoute.Dashboard | frontend/src/App.jsx:36-55 | every dashboard route is guarded with neither prop |
| ProtectedRoute.AnyUserReachesEveryDashboard | frontend/src/App.jsx:36-55 | any signed-in user reaches every mounted dashboard |
| ProtectedRoute.NoUserReachesNoDashboard | frontend/src/components/ProtectedRoute.jsx:7 | without a user every dashboard redirects to `/login` |
| DashboardRoutes.Find | frontend/src/utils/dashboardRoutes.js:2-29 | a key lookup in the table is empty exactly when no entry has the key |
| DashboardRoutes.Redirect | frontend/src/pages/Auth/Login.jsx:18-19 | the redirect is `/` or the table's path for exactly the user's company and role |
| DashboardRoutes.FindEntry | frontend/src/utils/dashboardRoutes.js:2-29 | with distinct keys, an entry's key finds that entry |
| DashboardRoutes.RedirectToEntry | frontend/src/utils/dashboardRoutes.js:2-29 | every table entry is where the redirect leads for its company and role |
| DashboardRoutes.EveryPairHasDashboard | frontend/src/utils/dashboardRoutes.js:2-29 | every company and role one can sign up with has a dashboard, and it is mounted |
| DashboardRoutes.SignUpPairInTable | frontend/src/utils/dashboardRoutes.js:2-29 | each sign-up company heads its table entry and each of its roles is listed there |
| DashboardRoutes.MountedEntry | frontend/src/App.jsx:36-55 | the dashboard of every sign-up pair is a mounted route |
| DashboardRoutes.PathsUnderPrefix | frontend/src/utils/dashboardRoutes.js:2-29 | each company's dashboards lie under that company's path prefix |
| DashboardRoutes.RolesDistinctWithin | frontend/src/utils/dashboardRoutes.js:2-29 | a company lists each role once |
| DashboardRoutes.PathsDistinctWithin | frontend/src/utils/dashboardRoutes.js:2-29 | dashboards of one company have distinct paths |
| DashboardRoutes.PathsDistinctAcross | frontend/src/utils/dashboardRoutes.js:2-29 | dashboards of different companies have distinct paths |
| DashboardRoutes.UnmountedDashboards | frontend/src/App.jsx:42-57 | the Logistics, Office Boy and Stone Marker dashboards have paths but no mounted route |
| DashboardRoutes.DefaultCompaniesInSync | frontend/src/pages/Auth/Signup.jsx:7-12 | the sign-up page's fallback list equals the backend's list |
| ListView.Query | frontend/src/pages/dashboards/clearanceAgents/AccountsDashboard.jsx:62 | the normalised query is the trimmed input lower-cased: no longer than the input, and `""` for blank input |
| ListView.Keep | frontend/src/pages/dashboards/clearanceAgents/AccountsDashboard.jsx:64-71 | `filter` keeps exactly the items passing the test, never more than the input |
| ListView.KeepAppend | frontend/src/pages/dashboards/clearanceAgents/AccountsDashboard.jsx:64-71 | filtering a concatenation filters each part, so kept items stay in order |
| ListView.KeepAll | frontend/src/pages/dashboards/clearanceAgents/AccountsDashboard.jsx:64-71 | a filter every item passes keeps the list as it is |
| ListView.Search | frontend/src/pages/dashboards/clearanceAgents/AccountsDashboard.jsx:61-72 | a blank query lists everything; otherwise exactly the items one of whose lower-cased fields contains the query, in order |
| ListView.BlankQueryKeepsAll | frontend/src/pages/dashboards/clearanceAgents/AccountsDashboard.jsx:63 | a blank query keeps the whole list |
| ListView.SearchAppend | frontend/src/pages/dashboards/clearanceAgents/AccountsDashboard.jsx:61-72 | the search distributes over concatenation, so it never reorders |
| ListView.LowerOfNumber | frontend/src/pages/dashboards/clearanceAgents/AccountsDashboard.jsx:70 | a number's text is unchanged by lower-casing, so matching `String(amount)` without `toLowerCase` matches the same way |
| ListView.TotalPages | frontend/src/pages/dashboards/clearanceAgents/AccountsDashboard.jsx:74 | at least one page, enough pages for every item, and no spare page |
| ListView.JsSlice | frontend/src/pages/dashboards/clearanceAgents/AccountsDashboard.jsx:75 | `slice` clips its bounds to the list and never returns more than was asked |
| ListView.Page | frontend/src/pages/dashboards/clearanceAgents/AccountsDashboard.jsx:75 | a page holds at most `perPage` items, is empty past the last page and non-empty up to it for a non-empty list |
| ListView.PageBounds | frontend/src/pages/dashboards/clearanceAgents/AccountsDashboard.jsx:74-75 | a page past the count starts at or after the end; a page within it starts before the end |
| ListView.PagesPrefix | frontend/src/pages/dashboards/clearanceAgents/AccountsDashboard.jsx:75 | the first `k` pages are the first `k * perPage` items |
| ListView.PagesPartition | frontend/src/pages/dashboards/clearanceAgents/AccountsDashboard.jsx:74-75 | pages 1 to the page count hold every item exactly once, in order |
| ListView.JoinFree | frontend/src/pages/dashboards/clearanceAgents/AccountsDashboard.jsx:80 | a join of parts without `c` on a separator without `c` holds no `c` |
| ListView.NumberClean | frontend/src/pages/dashboards/clearanceAgents/AccountsDashboard.jsx:79 | a number's decimal text holds no comma and no line feed |
| ListView.CleanNumbered | frontend/src/pages/dashboards/clearanceAgents/AccountsDashboard.jsx:79 | a number framed by clean text is clean |
| ListView.CsvLines | frontend/src/pages/dashboards/clearanceAgents/CompanyOwnerDashboard.jsx:70 | read back by lines, the export is the header line and one line per row |
| ListView.CsvLineCount | frontend/src/pages/dashboards/clearanceAgents/CompanyOwnerDashboard.jsx:70 | the export has one line more than it has rows |
| ListView.FixedCsvReadBack | frontend/src/pages/dashboards/clearanceAgents/AccountsDashboard.jsx:77-80 | without commas or line feeds in the fields, the export reads back line by line and cell by cell as the header and the records |
| ListView.CsvCells | frontend/src/pages/dashboards/clearanceAgents/CompanyOwnerDashboard.jsx:70 | read back by cells, a line holds the row's values in header order, `""` where one is missing |
| ListView.ListState.constructor | frontend/src/pages/dashboards/clearanceAgents/AccountsDashboard.jsx:55-58 | empty query, the page's first tab, page 1 |
| ListView.ListState.EditQuery | frontend/src/pages/dashboards/clearanceAgents/AccountsDashboard.jsx:124-127 | typing sets the query and returns to page 1, tab unchanged |
| ListView.ListState.SelectTab | frontend/src/pages/dashboards/clearanceAgents/AccountsDashboard.jsx:158-159 | a navigation tab sets the tab and returns to page 1 |
| ListView.ListState.QuickTab | frontend/src/pages/dashboards/shipper/CompanyOwnerDashboard.jsx:152 | a shortcut button sets the tab and keeps the page |
| ListView.ListState.Prev | frontend/src/pages/dashboards/clearanceAgents/AccountsDashboard.jsx:245 | `Math.max(1, p - 1)`: never below 1, never forward |
| ListView.ListState.Next | frontend/src/pages/dashboards/clearanceAgents/AccountsDashboard.jsx:251 | `Math.min(totalPages, p + 1)`: never past the last page, within range when it started in range |
| FeatureCards.FeaturesFiltered | frontend/src/pages/dashboards/shipper/CompanyOwnerDashboard.jsx:57-63 | a blank query lists every card; otherwise exactly the cards whose lower-cased title or summary contains the query, in order |
| FeatureCards.NineCardsTwoPages | frontend/src/pages/dashboards/shipper/CompanyOwnerDashboard.jsx:65-66 | nine cards at six per page make two pages, of six and three |
| FeatureCards.BlankQueryListsAll | frontend/src/pages/dashboards/shipper/CompanyOwnerDashboard.jsx:59 | a blank query lists the whole catalogue |
| ListView.CsvReadBack | frontend/src/pages/dashboards/clearanceAgents/CompanyOwnerDashboard.jsx:70 | without commas or line feeds in the headers and values, the export reads back as the header cells and, per row, the row's value for each header |
| TransporterAdmin.SampleStatus | frontend/src/pages/dashboards/transporter/AdminDashboard.jsx:23 | a sample user is suspended exactly when its index is a multiple of 5, active otherwise |
| TransporterAdmin.SampleUser | frontend/src/pages/dashboards/transporter/AdminDashboard.jsx:18-25 | the i-th sample user takes name and role from the four-entry cycles and the status rule |
| TransporterAdmin.SampleUsers | frontend/src/pages/dashboards/transporter/AdminDashboard.jsx:18 | 23 sample users, the i-th built by the sample rule |
| TransporterAdmin.UsersFiltered | frontend/src/pages/dashboards/transporter/AdminDashboard.jsx:35-45 | a blank query lists every user; otherwise exactly the users whose id, name, e-mail or role contains the query |
| TransporterAdmin.UserPages | frontend/src/pages/dashboards/transporter/AdminDashboard.jsx:47 | at least one page, room for every filtered user, and no spare page: `ceil(n/8)` with a minimum of one |
| TransporterAdmin.PagedUsers | frontend/src/pages/dashboards/transporter/AdminDashboard.jsx:48 | at most eight users per page, none past the last page |
| TransporterAdmin.BlankQueryPages | frontend/src/pages/dashboards/transporter/AdminDashboard.jsx:47-48 | with an empty search the 23 users fill three pages, the first of eight and the last of seven |
| TransporterAdmin.SampleRolesCycle | frontend/src/pages/dashboards/transporter/AdminDashboard.jsx:22 | the sample roles repeat every four users |
| TransporterOwner.FeatureIds | frontend/src/pages/dashboards/transporter/CompanyOwnerDashboard.jsx:82 | a role in the role table gets its listed feature ids, any other role none |
| TransporterOwner.AvailableFeatures | frontend/src/pages/dashboards/transporter/CompanyOwnerDashboard.jsx:83 | one entry per listed id, a card exactly when the id has one |
| TransporterOwner.EveryRoleHasFeatures | frontend/src/pages/dashboards/transporter/CompanyOwnerDashboard.jsx:5-31 | every role of the switcher lists features, each with a card, so no entry is `undefined` |
| TransporterOwner.UnknownRoleNoFeatures | frontend/src/pages/dashboards/transporter/CompanyOwnerDashboard.jsx:82 | a role outside the table sees no features |
| TransporterOwner.DocsOnlyForLogisticsAndDriver | frontend/src/pages/dashboards/transporter/CompanyOwnerDashboard.jsx:26-31 | the export-documents feature is offered exactly to logistics and drivers |
| TransporterOwner.Actions | frontend/src/pages/dashboards/transporter/CompanyOwnerDashboard.jsx:230 | a catalogue feature gets its own actions, any other id the single action `View`; never empty |
| TransporterOwner.ActionsForFeature | frontend/src/pages/dashboards/transporter/CompanyOwnerDashboard.jsx:219-234 | a driver gets the first two actions (all when fewer), an owner every action then `View Financial Impact`, anyone else the actions unchanged |
| TransporterOwner.EveryFeatureHasActions | frontend/src/pages/dashboards/transporter/CompanyOwnerDashboard.jsx:220-230 | every catalogue feature has three actions of its own, so `['View']` is never shown |
| TransporterOwner.DriverActionsAreOwnerActions | frontend/src/pages/dashboards/transporter/CompanyOwnerDashboard.jsx:231-232 | every action a driver is offered is offered to the owner too |
| TruckDriver.DutyIdsDistinct | frontend/src/pages/dashboards/transporter/TruckDriverDashboard.jsx:5-72 | the ten duty ids are distinct |
| TruckDriver.Filtered | frontend/src/pages/dashboards/transporter/TruckDriverDashboard.jsx:80-88 | a blank query keeps every duty; otherwise exactly the duties whose title, summary or description contains the query |
| TruckDriver.Main | frontend/src/pages/dashboards/transporter/TruckDriverDashboard.jsx:153-159 | the no-match message shows exactly when the filter is empty; otherwise the cards of the filtered duties |
| TruckDriver.BlankQueryShowsAll | frontend/src/pages/dashboards/transporter/TruckDriverDashboard.jsx:82 | a blank search shows all ten cards |
| TruckDriver.Modal.constructor | frontend/src/pages/dashboards/transporter/TruckDriverDashboard.jsx:76-77 | nothing selected and the modal closed, so nothing is drawn |
| TruckDriver.Modal.OpenRole | frontend/src/pages/dashboards/transporter/TruckDriverDashboard.jsx:90-93 | the duty is selected and the modal opened and drawn |
| TruckDriver.Modal.CloseModal | frontend/src/pages/dashboards/transporter/TruckDriverDashboard.jsx:95-98 | the modal is closed and the selection cleared |
| TruckDriver.Modal.RendersWhenOpen | frontend/src/pages/dashboards/transporter/TruckDriverDashboard.jsx:207 | while selection and open flag move together, the modal is drawn exactly when open |
| ShipperOwner.Filtered | frontend/src/pages/dashboards/shipper/CompanyOwnerDashboard.jsx:57-63 | a blank query lists every card; otherwise exactly the cards whose title or summary contains the query |
| ShipperOwner.PageCount | frontend/src/pages/dashboards/shipper/CompanyOwnerDashboard.jsx:65 | enough pages of six for the filtered cards, at least one, no spare page |
| ShipperOwner.Paged | frontend/src/pages/dashboards/shipper/CompanyOwnerDashboard.jsx:66 | at most six cards per page, none past the last page, some on every page up to it |
| ShipperOwner.NextPage | frontend/src/pages/dashboards/shipper/CompanyOwnerDashboard.jsx:246 | Next moves one page on, clamped to the page count of the current search |
| ShipperOwner.FeatureIdsDistinct | frontend/src/pages/dashboards/shipper/CompanyOwnerDashboard.jsx:5-39 | the card ids are distinct |
| ShipperOwner.BlankQueryTwoPages | frontend/src/pages/dashboards/shipper/CompanyOwnerDashboard.jsx:65-66 | with a blank query the nine cards fill two pages, of six and three |
| FactoryOwner.Filtered | frontend/src/pages/dashboards/factory/CompanyOwnerDashboard.jsx:65-71 | a blank query lists every card; otherwise exactly the cards whose title or summary contains the query |
| FactoryOwner.PageCount | frontend/src/pages/dashboards/factory/CompanyOwnerDashboard.jsx:73 | enough pages of six for the filtered cards, at least one, no spare page |
| FactoryOwner.Paged | frontend/src/pages/dashboards/factory/CompanyOwnerDashboard.jsx:74 | at most six cards per page, none past the last page, some on every page up to it |
| FactoryOwner.NextPage | frontend/src/pages/dashboards/factory/CompanyOwnerDashboard.jsx:242 | Next moves one page on, clamped to the page count of the current search |
| FactoryOwner.FeatureIdsDistinct | frontend/src/pages/dashboards/factory/CompanyOwnerDashboard.jsx:5-47 | the card ids are distinct |
| FactoryOwner.BlankQueryTwoPages | frontend/src/pages/dashboards/factory/CompanyOwnerDashboard.jsx:73-74 | with a blank query the nine cards fill two pages, of six and three |
| ShipperAdmin.SampleShipment | frontend/src/pages/dashboards/shipper/AdminDashboard.jsx:15-22 | origin, destination and status follow the four-entry cycles; the weight is 50 kg to 1000 kg in steps of 50 |
| ShipperAdmin.SampleCustomer | frontend/src/pages/dashboards/shipper/AdminDashboard.jsx:24-30 | the name follows the three-entry cycle; every fourth customer from the first is on hold, the rest active |
| ShipperAdmin.SampleShipments | frontend/src/pages/dashboards/shipper/AdminDashboard.jsx:15 | twenty shipments built by the sample rule |
| ShipperAdmin.SampleCustomers | frontend/src/pages/dashboards/shipper/AdminDashboard.jsx:24 | twelve customers built by the sample rule |
| ShipperAdmin.ShipmentsFiltered | frontend/src/pages/dashboards/shipper/AdminDashboard.jsx:40-50 | a blank query lists every shipment; otherwise exactly those whose id, origin, destination or status contains the query |
| ShipperAdmin.CustomersFiltered | frontend/src/pages/dashboards/shipper/AdminDashboard.jsx:52-61 | a blank query lists every customer; otherwise exactly those whose id, name or e-mail contains the query |
| ShipperAdmin.Shown | frontend/src/pages/dashboards/shipper/AdminDashboard.jsx:66-69 | the customers tab shows the filtered customers, every other tab the filtered shipments |
| ShipperAdmin.PageCount | frontend/src/pages/dashboards/shipper/AdminDashboard.jsx:63-68 | enough pages of eight for the list the tab shows, at least one, no spare page |
| ShipperAdmin.PagedItems | frontend/src/pages/dashboards/shipper/AdminDashboard.jsx:69-72 | at most eight entries of the tab's list, none past the last page |
| ShipperAdmin.NextPage | frontend/src/pages/dashboards/shipper/AdminDashboard.jsx:258 | Next moves one page on, clamped to the page count of the current tab and search |
| ShipperAdmin.ShipmentRows | frontend/src/pages/dashboards/shipper/AdminDashboard.jsx:136-140 | one export row per shipment |
| ShipperAdmin.CustomerRows | frontend/src/pages/dashboards/shipper/AdminDashboard.jsx:130-134 | one export row per customer |
| ShipperAdmin.ExportOneLinePerRow | frontend/src/pages/dashboards/shipper/AdminDashboard.jsx:74-77 | the export reads back as the header line, whose cells are the tab's column names, then one line per entry of the tab's list, in order, whose cells are that entry's fields in column order |
| ShipperAdmin.ShipmentsUnquoted | frontend/src/pages/dashboards/shipper/AdminDashboard.jsx:15-22 | no sample shipment value holds a comma or line feed, so the unquoted export is well formed |
| ShipperAdmin.CustomersUnquoted | frontend/src/pages/dashboards/shipper/AdminDashboard.jsx:24-30 | no sample customer value holds a comma or line feed, so the unquoted export is well formed |
| ShipperAccounts.SampleStatus | frontend/src/pages/dashboards/shipper/AccountsDashboard.jsx:32 | every fourth invoice from the first is overdue; of the rest, every third is part paid, the others pending |
| ShipperAccounts.SampleInvoice | frontend/src/pages/dashboards/shipper/AccountsDashboard.jsx:28-34 | the customer follows the three-entry cycle; the amount is 2000 to 11900 in steps of 100 |
| ShipperAccounts.SampleInvoices | frontend/src/pages/dashboards/shipper/AccountsDashboard.jsx:28 | eighteen invoices built by the sample rule |
| ShipperAccounts.InvoicesFiltered | frontend/src/pages/dashboards/shipper/AccountsDashboard.jsx:44-54 | a blank query lists every invoice; otherwise exactly those whose lower-cased id, customer or status, or decimal amount, contains the query |
| ShipperAccounts.PageCount | frontend/src/pages/dashboards/shipper/AccountsDashboard.jsx:56 | enough pages of eight for the filtered invoices, at least one, no spare page |
| ShipperAccounts.Paged | frontend/src/pages/dashboards/shipper/AccountsDashboard.jsx:57 | at most eight invoices per page, none past the last page, some on every page up to it |
| ShipperAccounts.NextPage | frontend/src/pages/dashboards/shipper/AccountsDashboard.jsx:227 | Next moves one page on, clamped to the page count of the current search |
| ShipperAccounts.HeaderNamesTheFields | frontend/src/pages/dashboards/shipper/AccountsDashboard.jsx:60-61 | the fixed header names the invoice fields in the order each line writes them |
| ShipperAccounts.Record | frontend/src/pages/dashboards/shipper/AccountsDashboard.jsx:61 | a line has one field per header name |
| ShipperAccounts.Records | frontend/src/pages/dashboards/shipper/AccountsDashboard.jsx:61 | one line per invoice, each the invoice's fields |
| ShipperAccounts.ExportReadsBack | frontend/src/pages/dashboards/shipper/AccountsDashboard.jsx:59-62 | the export of the current search reads back as the header and then, line by line, each listed invoice's fields |
| ShipperAccounts.SamplesExportReadsBack | frontend/src/pages/dashboards/shipper/AccountsDashboard.jsx:59-62 | any list of sample invoices exports to the header and one readable line per invoice |
| ShipperAdmin.ShipmentsReadBack | frontend/src/pages/dashboards/shipper/AdminDashboard.jsx:74-77 | the shipments export: header `id,origin,destination,status,weight,eta`, then per shipment its id, origin, destination, status, weight and ETA |
| ShipperAdmin.CustomersReadBack | frontend/src/pages/dashboards/shipper/AdminDashboard.jsx:74-77 | the customers export: header `id,name,email,phone,status`, then per customer its id, name, email, phone and status |
| ClearanceAdmin.SampleClearance | frontend/src/pages/dashboards/clearanceAgents/AdminDashboard.jsx:44-51 | client and status follow their cycles; the duty is 3000 to 22900 in steps of 100 |
| ClearanceAdmin.SampleClearances | frontend/src/pages/dashboards/clearanceAgents/AdminDashboard.jsx:44 | twenty clearances built by the sample rule |
| ClearanceAdmin.FilteredRecords | frontend/src/pages/dashboards/clearanceAgents/AdminDashboard.jsx:61-72 | a blank query lists every clearance; otherwise exactly those whose lower-cased id, reference, client or status, or decimal duty, contains the query |
| ClearanceAdmin.PageCount | frontend/src/pages/dashboards/clearanceAgents/AdminDashboard.jsx:74 | enough pages of eight for the filtered clearances, at least one, no spare page |
| ClearanceAdmin.Paged | frontend/src/pages/dashboards/clearanceAgents/AdminDashboard.jsx:75 | at most eight clearances per page, none past the last page, some on every page up to it |
| ClearanceAdmin.NextPage | frontend/src/pages/dashboards/clearanceAgents/AdminDashboard.jsx:252 | Next moves one page on, clamped to the page count of the current search |
| ClearanceAdmin.HeaderNamesTheFields | frontend/src/pages/dashboards/clearanceAgents/AdminDashboard.jsx:78-79 | the fixed header names the record fields in the order each line writes them |
| ClearanceAdmin.Record | frontend/src/pages/dashboards/clearanceAgents/AdminDashboard.jsx:79 | a line has one field per header name |
| ClearanceAdmin.Records | frontend/src/pages/dashboards/clearanceAgents/AdminDashboard.jsx:79 | one line per clearance, each the clearance's fields |
| ClearanceAdmin.ExportReadsBack | frontend/src/pages/dashboards/clearanceAgents/AdminDashboard.jsx:77-80 | the export of the current search reads back as the header and then, line by line, each listed clearance's fields |
| ClearanceAdmin.SingleExport | frontend/src/pages/dashboards/clearanceAgents/AdminDashboard.jsx:445 | the modal's export is the header and exactly the selected clearance |
| ClearanceAdmin.SamplesExportReadsBack | frontend/src/pages/dashboards/clearanceAgents/AdminDashboard.jsx:77-80 | any list of sample clearances exports to the header and one readable line per clearance |
| ClearanceAccounts.SampleKind | frontend/src/pages/dashboards/clearanceAgents/AccountsDashboard.jsx:47 | the types cycle through invoice, duty, vendor and expense |
| ClearanceAccounts.SampleStatus | frontend/src/pages/dashboards/clearanceAgents/AccountsDashboard.jsx:49 | every fifth record from the first is overdue; of the rest, every third is part paid, the others pending |
| ClearanceAccounts.SampleEntry | frontend/src/pages/dashboards/clearanceAgents/AccountsDashboard.jsx:44-51 | client, type and status follow their rules; the amount is 5000 to 24900 in steps of 100 |
| ClearanceAccounts.SampleEntries | frontend/src/pages/dashboards/clearanceAgents/AccountsDashboard.jsx:44 | twenty records built by the sample rule |
| ClearanceAccounts.RecordsFiltered | frontend/src/pages/dashboards/clearanceAgents/AccountsDashboard.jsx:61-72 | a blank query lists every record; otherwise exactly those whose lower-cased id, client, type or status, or decimal amount, contains the query |
| ClearanceAccounts.PageCount | frontend/src/pages/dashboards/clearanceAgents/AccountsDashboard.jsx:74 | enough pages of eight for the filtered records, at least one, no spare page |
| ClearanceAccounts.Paged | frontend/src/pages/dashboards/clearanceAgents/AccountsDashboard.jsx:75 | at most eight records per page, none past the last page, some on every page up to it |
| ClearanceAccounts.NextPage | frontend/src/pages/dashboards/clearanceAgents/AccountsDashboard.jsx:251 | Next moves one page on, clamped to the page count of the current search |
| ClearanceAccounts.HeaderNamesTheFields | frontend/src/pages/dashboards/clearanceAgents/AccountsDashboard.jsx:78-79 | the fixed header names the record fields in the order each line writes them |
| ClearanceAccounts.Record | frontend/src/pages/dashboards/clearanceAgents/AccountsDashboard.jsx:79 | a line has one field per header name |
| ClearanceAccounts.Records | frontend/src/pages/dashboards/clearanceAgents/AccountsDashboard.jsx:79 | one line per record, each the record's fields |
| ClearanceAccounts.ExportReadsBack | frontend/src/pages/dashboards/clearanceAgents/AccountsDashboard.jsx:77-80 | the export of the current search reads back as the header and then, line by line, each listed record's fields |
| ClearanceAccounts.SingleExport | frontend/src/pages/dashboards/clearanceAgents/AccountsDashboard.jsx:427 | the modal's export is the header and exactly the selected record |
| ClearanceAccounts.SamplesExportReadsBack | frontend/src/pages/dashboards/clearanceAgents/AccountsDashboard.jsx:77-80 | any list of sample records exports to the header and one readable line per record |
| ClearanceOwner.SampleAccount | frontend/src/pages/dashboards/clearanceAgents/CompanyOwnerDashboard.jsx:24-30 | the name follows the three-entry cycle; every fifth account from the first is on hold; the amount owed is 10000 to 59000 in steps of 1000 |
| ClearanceOwner.SampleAccounts | frontend/src/pages/dashboards/clearanceAgents/CompanyOwnerDashboard.jsx:24 | twelve accounts built by the sample rule |
| ClearanceOwner.FilteredFeatures | frontend/src/pages/dashboards/clearanceAgents/CompanyOwnerDashboard.jsx:41-45 | a blank query lists every card; otherwise exactly the cards whose title or summary contains the query |
| ClearanceOwner.AccountsFiltered | frontend/src/pages/dashboards/clearanceAgents/CompanyOwnerDashboard.jsx:47-51 | a blank query lists every account; otherwise exactly those whose id or name contains the query |
| ClearanceOwner.Shown | frontend/src/pages/dashboards/clearanceAgents/CompanyOwnerDashboard.jsx:53-54 | the list the header's `Showing` counter counts and its Export chooses by: the filtered accounts on the `commercial` tab, the filtered cards on every other tab |
| ClearanceOwner.PageCount | frontend/src/pages/dashboards/clearanceAgents/CompanyOwnerDashboard.jsx:53 | pages of six for the tab's list, at least one, no spare page; computed by the page but never rendered |
| ClearanceOwner.Paged | frontend/src/pages/dashboards/clearanceAgents/CompanyOwnerDashboard.jsx:54 | at most six entries of the tab's list, none past the last page; computed by the page but never rendered |
| ClearanceOwner.FinancePageCount | frontend/src/pages/dashboards/clearanceAgents/CompanyOwnerDashboard.jsx:218 | the finance table counts pages of six of the filtered accounts, at least one |
| ClearanceOwner.FinanceRows | frontend/src/pages/dashboards/clearanceAgents/CompanyOwnerDashboard.jsx:199 | at most six accounts per page, none past the table's last page |
| ClearanceOwner.FinanceTableIsCommercialList | frontend/src/pages/dashboards/clearanceAgents/CompanyOwnerDashboard.jsx:199-221 | the finance table pages the same accounts as the `commercial` tab's list |
| ClearanceOwner.FinanceNext | frontend/src/pages/dashboards/clearanceAgents/CompanyOwnerDashboard.jsx:221 | the finance Next button moves one page on, clamped to the table's own page count |
| ClearanceOwner.AccountRows | frontend/src/pages/dashboards/clearanceAgents/CompanyOwnerDashboard.jsx:99 | one export row per account |
| ClearanceOwner.ExportFor | frontend/src/pages/dashboards/clearanceAgents/CompanyOwnerDashboard.jsx:98-101 | the Export button exports the filtered accounts as CSV exactly on the `commercial` tab, the specification otherwise |
| ClearanceOwner.AccountExportLines | frontend/src/pages/dashboards/clearanceAgents/CompanyOwnerDashboard.jsx:99 | the account export reads back as the header `id,name,outstanding,lastActive,status` and, per account of the current search in order, its id, name, outstanding amount, last activity and status |
| ClearanceOwner.SingleAccountExport | frontend/src/pages/dashboards/clearanceAgents/CompanyOwnerDashboard.jsx:208 | a row's own Export reads back as the header `id,name,outstanding,lastActive,status` and one line with that account's five cells |
| ClearanceOwner.AccountsUnquoted | frontend/src/pages/dashboards/clearanceAgents/CompanyOwnerDashboard.jsx:24-30 | no sample account value holds a comma or line feed, so the unquoted export is well formed |
| FactoryAdmin.MachineStatus | frontend/src/pages/dashboards/factory/AdminDashboard.jsx:34 | every sixth machine from the first is down; of the rest every fourth is in maintenance, the others running |
| FactoryAdmin.SampleMachine | frontend/src/pages/dashboards/factory/AdminDashboard.jsx:31-36 | the name follows the four-entry cycle and the status the status rule |
| FactoryAdmin.SampleMachines | frontend/src/pages/dashboards/factory/AdminDashboard.jsx:31 | fourteen machines built by the sample rule |
| FactoryAdmin.SampleStatusCounts | frontend/src/pages/dashboards/factory/AdminDashboard.jsx:31-36 | machines 0, 6 and 12 are down and 4 and 8 in maintenance |
| FactoryAdmin.FilteredFeatures | frontend/src/pages/dashboards/factory/AdminDashboard.jsx:47-53 | a blank query lists every card; otherwise exactly the cards whose title or summary contains the query |
| FactoryAdmin.MachinesFiltered | frontend/src/pages/dashboards/factory/AdminDashboard.jsx:55-64 | a blank query lists every machine; otherwise exactly those whose id, name or status contains the query |
| FactoryAdmin.Shown | frontend/src/pages/dashboards/factory/AdminDashboard.jsx:69-72 | the `maintenance` tab shows the filtered machines, every other tab the filtered cards |
| FactoryAdmin.PageCount | frontend/src/pages/dashboards/factory/AdminDashboard.jsx:66-71 | enough pages of eight for the tab's list, at least one, no spare page |
| FactoryAdmin.PagedItems | frontend/src/pages/dashboards/factory/AdminDashboard.jsx:72-75 | at most eight entries of the tab's list, none past the last page |
| FactoryAdmin.BlankMaintenancePages | frontend/src/pages/dashboards/factory/AdminDashboard.jsx:66-75 | with a blank query the fourteen machines fill two pages, the second holding six |
| FactoryAdmin.NextPage | frontend/src/pages/dashboards/factory/AdminDashboard.jsx:296 | Next moves one page on, clamped to the page count of the current tab and search |
| FactoryAdmin.MachineRows | frontend/src/pages/dashboards/factory/AdminDashboard.jsx:145-149 | one export row per machine |
| FactoryAdmin.ExportFor | frontend/src/pages/dashboards/factory/AdminDashboard.jsx:143-151 | the Export button exports the filtered machines as CSV exactly on the `maintenance` tab, the specification otherwise |
| FactoryAdmin.MachineExportLines | frontend/src/pages/dashboards/factory/AdminDashboard.jsx:94-97 | the machine export reads back as the header `id,name,status,lastService` and, per machine of the current search in order, its id, name, status and last service date |
| FactoryAdmin.MachinesUnquoted | frontend/src/pages/dashboards/factory/AdminDashboard.jsx:31-36 | no sample machine value holds a comma or line feed, so the unquoted export is well formed |
| ClearanceOwner.AccountsReadBack | frontend/src/pages/dashboards/clearanceAgents/CompanyOwnerDashboard.jsx:99 | any account list exports as the account header and one line of five cells per account, in order |
| ClearanceOwner.Apply | frontend/src/pages/dashboards/clearanceAgents/CompanyOwnerDashboard.jsx:125-221 | under every action (typing, tab click, quick action, the finance table's Prev and Next) the finance table's page stays within its range; typing and tab clicks go to page 1, a quick action keeps the page |
| DocTemplates.GapSegments | frontend/src/pages/dashboards/shipper/DocumentationDashboard.jsx:8-127 | the placeholders of a built-in body alternate with the literal text following each |
| DocTemplates.Segments | frontend/src/pages/dashboards/shipper/DocumentationDashboard.jsx:8-127 | a built-in body is its leading text, then each placeholder followed by its literal text, in reading order |
| DocTemplates.SegmentAt | frontend/src/pages/dashboards/shipper/DocumentationDashboard.jsx:8-127 | even positions of a body hold literal text, odd ones its placeholders in order |
| DocTemplates.MentionsGapNames | frontend/src/pages/dashboards/shipper/DocumentationDashboard.jsx:138 | the names the scan replaces in a built-in body are exactly the names of its placeholders |
| DocTemplates.FieldNames | frontend/src/pages/dashboards/shipper/DocumentationDashboard.jsx:192 | the field names of a template, one per field, in form order |
| DocTemplates.DefaultFor | frontend/src/pages/dashboards/shipper/DocumentationDashboard.jsx:193 | a date field starts at today's date, every other field at `""` |
| DocTemplates.InitialValuesKeys | frontend/src/pages/dashboards/shipper/DocumentationDashboard.jsx:191-194 | the starting values have exactly one key per field name |
| DocTemplates.InitialValuesEntry | frontend/src/pages/dashboards/shipper/DocumentationDashboard.jsx:191-194 | with distinct field names each field's key holds that field's default |
| DocTemplates.InitialValuesBlankOrToday | frontend/src/pages/dashboards/shipper/DocumentationDashboard.jsx:193 | every starting value is today's date or `""` |
| DocTemplates.Defaults | frontend/src/pages/dashboards/shipper/DocumentationDashboard.jsx:191-194 | the `forEach` loop builds exactly the starting-value map, keyed by the field names |
| DocTemplates.Find | frontend/src/pages/dashboards/shipper/DocumentationDashboard.jsx:149 | `find` by id: none exactly when no template carries the id, otherwise a listed template carrying it |
| DocTemplates.FindFirst | frontend/src/pages/dashboards/shipper/DocumentationDashboard.jsx:149 | the template found is the first one carrying the id |
| DocTemplates.Or | frontend/src/pages/dashboards/shipper/DocumentationDashboard.jsx:318 | string fallback: the first string unless it is empty, then the second |
| ShipperDocs.QuotationPlaceholders | frontend/src/pages/dashboards/shipper/DocumentationDashboard.jsx:9-27 | the quotation body's placeholders are exactly its field names |
| ShipperDocs.ConfirmationPlaceholders | frontend/src/pages/dashboards/shipper/DocumentationDashboard.jsx:28-45 | the confirmation body's placeholders are exactly its field names |
| ShipperDocs.TripartyPlaceholders | frontend/src/pages/dashboards/shipper/DocumentationDashboard.jsx:46-63 | the tri-party body's placeholders are exactly its field names |
| ShipperDocs.LabelPlaceholders | frontend/src/pages/dashboards/shipper/DocumentationDashboard.jsx:64-82 | the label body's placeholders are exactly its field names |
| ShipperDocs.InvoicePlaceholders | frontend/src/pages/dashboards/shipper/DocumentationDashboard.jsx:83-104 | the invoice body's placeholders are exactly its field names |
| ShipperDocs.PackingPlaceholders | frontend/src/pages/dashboards/shipper/DocumentationDashboard.jsx:105-126 | a packing-list body names exactly the fields of its template |
| ShipperDocs.TemplatePlaceholders | frontend/src/pages/dashboards/shipper/DocumentationDashboard.jsx:8-127 | every built-in body's placeholders are exactly its template's field names |
| ShipperDocs.IdsDistinct | frontend/src/pages/dashboards/shipper/DocumentationDashboard.jsx:8-127 | the six template ids are distinct |
| ShipperDocs.SafeEscapeValue | frontend/src/pages/dashboards/shipper/DocumentationDashboard.jsx:131-134 | a missing value gives `""`; the result has no angle bracket; text without one is unchanged; text without `&` decodes back to the value |
| ShipperDocs.Replacement | frontend/src/pages/dashboards/shipper/DocumentationDashboard.jsx:138-141 | a captured key missing from the form becomes `""`, a present one its escaped value, looked up untrimmed |
| ShipperDocs.RenderTemplate | frontend/src/pages/dashboards/shipper/DocumentationDashboard.jsx:136-137 | an empty body renders as `""` |
| ShipperDocs.RenderStep | frontend/src/pages/dashboards/shipper/DocumentationDashboard.jsx:138-141 | literal text copied, the placeholder replaced, the replacement never rescanned |
| ShipperDocs.RenderSingle | frontend/src/pages/dashboards/shipper/DocumentationDashboard.jsx:138-141 | a body that is one placeholder renders as its replacement |
| ShipperDocs.RenderMissingKey | frontend/src/pages/dashboards/shipper/DocumentationDashboard.jsx:139 | a placeholder whose key is not in the form renders as `""` |
| ShipperDocs.RenderUntrimmedKey | frontend/src/pages/dashboards/shipper/DocumentationDashboard.jsx:138-139 | `{{ k }}` looks up `k` with its trailing blanks, so it renders `""` even when `k` has a value |
| ShipperDocs.RenderNoRescan | frontend/src/pages/dashboards/shipper/DocumentationDashboard.jsx:138-141 | a value that looks like a placeholder is emitted as it is |
| ShipperDocs.RenderBuiltIn | frontend/src/pages/dashboards/shipper/DocumentationDashboard.jsx:136-142 | a built-in template renders as its literal text with each field's escaped value in place |
| ShipperDocs.FinalSubject | frontend/src/pages/dashboards/shipper/DocumentationDashboard.jsx:280-281 | the typed subject when it has a non-blank character, else the title, else `Document`; never empty |
| ShipperDocs.SendRequest | frontend/src/pages/dashboards/shipper/DocumentationDashboard.jsx:272-289 | no request exactly when the recipient is empty or lacks `@`; otherwise to the recipient, with the final subject, the rendered body and the form values |
| ShipperDocs.SendOutcome | frontend/src/pages/dashboards/shipper/DocumentationDashboard.jsx:269-330 | a rejected recipient is an error; an ok reply a success; a 403 or a thrown call opens the mail client with the rendered body; any other reply an error |
| ShipperDocs.CallSendTemplate | frontend/src/pages/dashboards/shipper/DocumentationDashboard.jsx:145 | calling a `sendTemplate` the context lacks throws; otherwise the reply comes back |
| ShipperDocs.SendAlwaysOpensMailClient | frontend/src/pages/dashboards/shipper/DocumentationDashboard.jsx:283 | with the context as it is, every send to a valid recipient ends in the mail client, subject as typed or else the title |
| ShipperDocs.BlankSubjectKeptOnFallback | frontend/src/pages/dashboards/shipper/DocumentationDashboard.jsx:280-281 | a blank non-empty subject is replaced by the title in the request but kept in the network fallback |
| ShipperDocs.DocsPage.Selected | frontend/src/pages/dashboards/shipper/DocumentationDashboard.jsx:148-151 | the selected template, when found, is listed and carries the selected id |
| ShipperDocs.DocsPage.constructor | frontend/src/pages/dashboards/shipper/DocumentationDashboard.jsx:146-155 | the state of the first render: the built-in templates, the quotation selected, empty form, no preview and no message |
| ShipperDocs.DocsPage.ApplySelection | frontend/src/pages/dashboards/shipper/DocumentationDashboard.jsx:189-198 | with a template selected: fresh defaults, their preview and no message; otherwise nothing changes |
| ShipperDocs.DocsPage.Select | frontend/src/pages/dashboards/shipper/DocumentationDashboard.jsx:146-198 | choosing a different template resets the form to its defaults and renders their preview; re-choosing the template shown, or an unknown id, keeps the form |
| ShipperDocs.DocsPage.Load | frontend/src/pages/dashboards/shipper/DocumentationDashboard.jsx:157-198 | a 2xx non-empty list replaces the templates, selects the first and fills the form with its defaults and preview; otherwise nothing changes on a valid page and an empty list is restored to the built-ins |
| ShipperDocs.Mount | frontend/src/pages/dashboards/shipper/DocumentationDashboard.jsx:146-198 | the page as first shown: the built-ins, the quotation selected, its defaults in the form and their preview, no message |
| ShipperDocs.DocsPage.HandleChange | frontend/src/pages/dashboards/shipper/DocumentationDashboard.jsx:200-208 | only the named key changes; the preview is the render of the new values, kept when nothing is selected |
| ShipperDocs.DocsPage.SendByEmail | frontend/src/pages/dashboards/shipper/DocumentationDashboard.jsx:269-330 | the request and the message shown are those of the send rules; templates, selection, form and preview are unchanged |
| ShipperDocs.DefaultsCoverPlaceholders | frontend/src/pages/dashboards/shipper/DocumentationDashboard.jsx:189-196 | with a built-in template the starting form has a value for every placeholder of its body |
| ClearanceDocs.FumigationPlaceholders | frontend/src/pages/dashboards/clearanceAgents/DocumentationDashboard.jsx:53-81 | the placeholders of the fumigation certificate body are exactly its form's field names |
| ClearanceDocs.ApedaSpiceBoardPlaceholders | frontend/src/pages/dashboards/clearanceAgents/DocumentationDashboard.jsx:83-109 | the placeholders of the APEDA / Spice Board certificate body are exactly its form's field names |
| ClearanceDocs.DraftBillOfLadingPlaceholders | frontend/src/pages/dashboards/clearanceAgents/DocumentationDashboard.jsx:111-142 | the placeholders of the draft bill of lading body are exactly its form's field names |
| ClearanceDocs.DraftCertificateOfOriginPlaceholders | frontend/src/pages/dashboards/clearanceAgents/DocumentationDashboard.jsx:144-168 | the placeholders of the draft certificate of origin body are exactly its form's field names |
| ClearanceDocs.DraftShippingBillPlaceholders | frontend/src/pages/dashboards/clearanceAgents/DocumentationDashboard.jsx:170-195 | the placeholders of the draft shipping bill body are exactly its form's field names |
| ClearanceDocs.OriginalShippingBillPlaceholders | frontend/src/pages/dashboards/clearanceAgents/DocumentationDashboard.jsx:197-221 | the placeholders of the original shipping bill body are exactly its form's field names |
| ClearanceDocs.OriginalBillOfLadingPlaceholders | frontend/src/pages/dashboards/clearanceAgents/DocumentationDashboard.jsx:223-253 | the placeholders of the original bill of lading body are exactly its form's field names |
| ClearanceDocs.OriginalCertificateOfOriginPlaceholders | frontend/src/pages/dashboards/clearanceAgents/DocumentationDashboard.jsx:255-280 | the placeholders of the original certificate of origin body are exactly its form's field names |
| ClearanceDocs.TemplatePlaceholders | frontend/src/pages/dashboards/clearanceAgents/DocumentationDashboard.jsx:52-281 | every built-in template's body text is its segment structure, and the names it mentions are exactly its field names |
| ClearanceDocs.IdsDistinct | frontend/src/pages/dashboards/clearanceAgents/DocumentationDashboard.jsx:52-281 | the eight built-in template ids are pairwise distinct, so selecting by id is unambiguous |
| ClearanceDocs.SafeEscape | frontend/src/pages/dashboards/clearanceAgents/DocumentationDashboard.jsx:283-286 | a missing value yields nothing; the result never contains `<` or `>`; a value without angle brackets is unchanged; one without `&` decodes back to the value |
| ClearanceDocs.SafeEscapeKeepsAmpersand | frontend/src/pages/dashboards/clearanceAgents/DocumentationDashboard.jsx:285 | a leading `&` is passed through unescaped (only `<` and `>` are escaped) |
| ClearanceDocs.MatchKey | frontend/src/pages/dashboards/clearanceAgents/DocumentationDashboard.jsx:290-291 | the key looked up is the captured text trimmed, so it neither begins nor ends with whitespace |
| ClearanceDocs.MatchKeyTrimmed | frontend/src/pages/dashboards/clearanceAgents/DocumentationDashboard.jsx:290-291 | blanks around a key inside the braces do not change the key looked up |
| ClearanceDocs.Replacement | frontend/src/pages/dashboards/clearanceAgents/DocumentationDashboard.jsx:291-292 | a match is replaced by the escaped value of its trimmed key, or by nothing when the key is absent from the form |
| ClearanceDocs.RenderTemplate | frontend/src/pages/dashboards/clearanceAgents/DocumentationDashboard.jsx:288-289 | an empty body renders as the empty string |
| ClearanceDocs.RenderStep | frontend/src/pages/dashboards/clearanceAgents/DocumentationDashboard.jsx:290-293 | literal text is copied, a placeholder becomes its replacement, and the scan continues after it |
| ClearanceDocs.RenderSingle | frontend/src/pages/dashboards/clearanceAgents/DocumentationDashboard.jsx:290-293 | a body that is a single placeholder renders as that placeholder's replacement |
| ClearanceDocs.RenderMissingKey | frontend/src/pages/dashboards/clearanceAgents/DocumentationDashboard.jsx:292 | a placeholder whose key the form lacks renders as the empty string |
| ClearanceDocs.RenderTrimmedKey | frontend/src/pages/dashboards/clearanceAgents/DocumentationDashboard.jsx:291 | `{{ k }}` renders exactly as `{{k}}`, which is the escaped value of `k` when the form has it |
| ClearanceDocs.RenderNoRescan | frontend/src/pages/dashboards/clearanceAgents/DocumentationDashboard.jsx:290-293 | a value that itself looks like a placeholder is emitted verbatim, never expanded a second time |
| ClearanceDocs.RenderBuiltIn | frontend/src/pages/dashboards/clearanceAgents/DocumentationDashboard.jsx:288-294 | each built-in template renders as its literal text with each placeholder's escaped value in place |
| ClearanceDocs.StripHtmlFallback | frontend/src/pages/dashboards/clearanceAgents/DocumentationDashboard.jsx:301-302 | the fallback keeps only characters of the input, leaves text without `<` unchanged, and leaves no `<` followed later by `>` |
| ClearanceDocs.StripHtmlFallbackTag | frontend/src/pages/dashboards/clearanceAgents/DocumentationDashboard.jsx:302 | a tag is removed whole and the text on both sides is kept, whitespace included |
| ClearanceDocs.UploadSubject | frontend/src/pages/dashboards/clearanceAgents/DocumentationDashboard.jsx:397 | the upload's subject is the typed subject, else the title, else `Document`, and is never empty |
| ClearanceDocs.SendRequest | frontend/src/pages/dashboards/clearanceAgents/DocumentationDashboard.jsx:383-433 | no request for a recipient that is empty or lacks `@`; otherwise an upload of the rendered body as `<id>.html` when attaching, else a JSON post, both carrying the recipient, the values and the template id |
| ClearanceDocs.SendOutcome | frontend/src/pages/dashboards/clearanceAgents/DocumentationDashboard.jsx:383-449 | a rejected recipient gives the error notice; success exactly on a 2xx reply (the JSON post also needing `ok` not false); every other reply or a thrown request opens the mail client with the typed subject (else the title) and the rendered body and shows a warning |
| ClearanceDocs.SubjectPaths | frontend/src/pages/dashboards/clearanceAgents/DocumentationDashboard.jsx:397 | the upload's subject is never empty, while the JSON post's subject is empty when both subject and title are empty |
| ClearanceDocs.DocsPage.Selected | frontend/src/pages/dashboards/clearanceAgents/DocumentationDashboard.jsx:311-314 | the selected template is the one with the selected id, else the first; none only when the list is empty |
| ClearanceDocs.DocsPage.constructor | frontend/src/pages/dashboards/clearanceAgents/DocumentationDashboard.jsx:308-319 | the state of the first render: the eight built-in templates, the first one selected, no values, an empty preview and no message |
| ClearanceDocs.DocsPage.ApplySelection | frontend/src/pages/dashboards/clearanceAgents/DocumentationDashboard.jsx:343-352 | on a selection change the values become each field's default, the preview their render, and the message is cleared |
| ClearanceDocs.DocsPage.Select | frontend/src/pages/dashboards/clearanceAgents/DocumentationDashboard.jsx:308-352 | choosing a different template selects it and resets the form to its defaults and their preview; re-choosing the template shown keeps the form |
| ClearanceDocs.DocsPage.Load | frontend/src/pages/dashboards/clearanceAgents/DocumentationDashboard.jsx:321-352 | a 2xx reply with a non-empty list replaces the templates, selects the first and fills the form with its defaults and preview; anything else changes nothing; the list never becomes empty |
| ClearanceDocs.Mount | frontend/src/pages/dashboards/clearanceAgents/DocumentationDashboard.jsx:308-352 | the page as first shown: the built-ins, the first selected, its defaults in the form and their preview, no message |
| ClearanceDocs.DocsPage.ChangeField | frontend/src/pages/dashboards/clearanceAgents/DocumentationDashboard.jsx:354-362 | only the named key changes, and the preview is the render of the new values |
| ClearanceDocs.DocsPage.Reset | frontend/src/pages/dashboards/clearanceAgents/DocumentationDashboard.jsx:555-565 | the values go back to each field's default and the preview to their render; the message stays |
| ClearanceDocs.DocsPage.Send | frontend/src/pages/dashboards/clearanceAgents/DocumentationDashboard.jsx:383-454 | the page makes the request and shows the notice the outcome function gives, leaving templates, selection, values and preview unchanged |
| ClearanceDocs.DefaultsCoverPlaceholders | frontend/src/pages/dashboards/clearanceAgents/DocumentationDashboard.jsx:343-350 | for a built-in template the starting form has a value for every placeholder of its body |

## Left out

- Network, storage and browser effects are not modelled. This covers `fetch`, `localStorage`, `window.open`, `Blob` downloads, `URL.createObjectURL`, timers clearing a message, `console` output and `navigate`. A reply appears as a parameter, and a failed fetch as an absent body. A mail-client fallback is recorded as the recipient, subject and HTML it would open, not as an encoded `mailto:` URL.
- Libraries are parameters. bcrypt hashing and comparison, `jwt.sign`/`jwt.verify`, the mongoose `User` and `Template` models, `validator.isEmail`, multer's upload parsing and every nodemailer call (transport creation, test accounts, `verify`, delivery, preview URLs) are inputs whose results the model takes as given.
- An uploaded file's text is read as the empty string when absent. Multer's size limit and MIME checks are not modelled.
- Randomness and the clock are parameters. The random sample amounts, duties, outstanding balances, weights and phone numbers are given by parameters indexed by sample. Today's date for date fields is a string parameter.
- `toLocaleString` and `toFixed` number formatting appear only in the rendered markup and are not modelled.
- JsStrings.ToLower: folds ASCII letters only. JavaScript's full Unicode case mapping is not modelled.
- String lengths count characters, not UTF-16 code units.
- ClearanceDocs.StripHtmlFallback: models only the regex fallback of `stripHtml`. The DOM path (`textContent` of a detached element) is not modelled, and neither is the plain text the mail fallback derives from the HTML.
- React rendering, JSX-only controls and styling are not modelled. This covers the owner dashboards' quick-action buttons, tab headers and modals beyond the detail selection.
- Template descriptions and field labels are not modelled. The `downloadSpec` and export-to-file text of the documentation pages, and copying the preview, are left out.
- The `mounted` flag of the template fetch and the `sending` flag are not modelled. Races between an in-flight fetch and a page change, and concurrency on the server, are outside a sequential model.
- Properties inherited from `Object.prototype` are not modelled. A key such as `constructor` or `toString` in a values map or role table would be found by JavaScript; the model's maps hold only their own keys.
- A missing template title is modelled as the empty string. The two behave alike under `||`.
- An absent and a `null` `previewUrl` are not distinguished.
- The token is modelled as the claims it carries. Expiry, signing and the secret are not modelled.
- `signIn`, `refreshToken` and `parseJwt` of the session context talk to the network or decode base64 and are not modelled. `login` and `signOut` are.
- In the shipper page's catch, a failure of the inner `window.open` cannot be expressed without a model of the browser, so it is not modelled.
- JsStrings.Trim: the contract gives only the shape of the result; the removed text is stated by TrimDropsOnlySpace (only whitespace, only at the ends) and TrimKeepsNonSpace (every other character kept, in order).
- JsStrings.ParseInt: the contract gives only when the result is `NaN`; the value read is stated by ParseIntValue. Digits beyond JavaScript's safe-integer range are read exactly, not rounded to a double.
- Html.EscapeAngles: the contract gives only the absence of angle brackets; the per-character map is stated by EscapeAnglesAt. Decoding restores the text only when it holds no `&`, because `&` is not escaped (EscapeAnglesConflates).
- ShipperDocs.SafeEscapeValue: the decoded value equals the input only for text without `&`, for the same reason.
- ClearanceDocs.SafeEscape: the decoded value equals the input only for text without `&`, for the same reason.
- TemplateRoutes.ServerReplacement: the value is stated only for text without `&`, which the route's escaper leaves raw.
- TemplateRender.RemoveTagsLoose: the contract gives only the shape of the result; the text kept is stated by RemoveTagsLooseTag, RemoveTagsLooseUnclosed and RemoveTagsLooseEmptyTag.
- TemplateRender.StripHtml: the contract states the kept text up to whitespace; how whitespace runs collapse is stated by CollapseSpacesWord, StripHtmlTwoWords and StripHtmlElement.
- SendController.PlainText: the contract gives only the shape of the result; the text kept is stated by PlainTextKeepsText and PlainTextElement.
- ShipperDocs.DocsPage.Select: the form is reset only when the selected template changes, as the effect keyed on the memoised template does; re-clicking the shown template keeps the typed values.
- ClearanceDocs.DocsPage.Select: the form is reset only when the selected template changes, for the same reason.
- ShipperDocs.DocsPage.constructor: gives the state of the first render only; the page as shown after its effects is Mount, the constructor followed by the selection effect.
- ClearanceDocs.DocsPage.constructor: gives the state of the first render only; the page as shown after its effects is Mount.
- Request bodies are modelled with string fields and template values as null, text or integers. A JSON boolean, fraction, array or object is not modelled: `String(value)` of such a value, and a numeric `password` that passes the length check at backend/src/controllers/authController.js:12 and then makes bcrypt throw (answer 500), are outside the model.
- Failures of database and library calls other than `User.create` are not modelled. A rejected `User.findOne` (backend/src/controllers/authController.js:13, 28), `bcrypt.hash` or `bcrypt.compare` (lines 15, 30), or `Template.findOne` (backend/src/controllers/sendcontroller.js:28) answers 500 in the source; the model's lookups over a sequence and its hashing cannot fail, so AuthController.UserStore.Login answers only 400, 401 or 200. A rejected `User.create` (line 16) is modelled: AuthController.UserStore.Register answers 500 with the database's message and stores nothing.
- JsStrings.IntToString: integers are unbounded and always written as digits; JavaScript's `String` switches to exponent notation (`1e+21`) at magnitudes of 10^21 and above, which the model does not reproduce.
- TemplateRoutes.AttachmentMail: the upload path sends no `text` field; the model writes it as the empty text, and an absent field and an empty one are not distinguished.

## Findings

| source | as written | input that shows it | evidently intended | confidence | as-written member | corrected member |
|---|---|---|---|---|---|---|
| backend/src/controllers/templateController.js:21 | the lookup reads `Templates`, whose import on line 4 is commented out, so evaluating it throws a `ReferenceError`, caught as 500 `Failed to send email` | a JSON body with `to` `a@b.co` and `templateId` `quotation`, with a stored `quotation` template | look the template up in a declared template list, answer 404 for an unknown id and otherwise send | not executed | TemplateController.SendTemplateEmail, TemplateController.UndeclaredTemplatesExample | TemplateController.SendTemplateEmailWith |
