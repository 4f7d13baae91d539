# DevCenter documentation portal — a Dafny model

DevCenter is a documentation portal written as a React single-page application. Products
hold top-navigation items. Items hold a tree of categories. Categories hold Markdown
documents that move through the Draft, Published and Archived states. Everything lives in
the browser's local storage. An admin area edits the content, and an AI helper drafts,
translates and imports documents through two chat providers (Gemini and Bailian), tried
in a configurable order.

This project models the core of the portal in Dafny:

- the storage service, with id-keyed saves and deletes, feedback counters, document
  versions, the user migration, and the migration of the stored AI configuration;
- the AI service, with its two adapters, the fallback router, the connection check, and
  the translation, PDF-analysis and site-chat tasks;
- the AI configuration page: priority moves, provider switches, field edits and the
  connection check;
- the document page: newline normalisation, front-matter removal, the wiki-link rewrite
  and the classification of links;
- the editor: the slug rules, saving with an automatic version, restoring, and the AI slug
  and draft actions;
- the batch Markdown upload and the PDF import;
- the menus page: sorting, document counts, defaults of new items, deletion and the
  translate-on-blur rule;
- the dashboard: filtering, selection and batch delete;
- the header: search, the top-navigation list and the product switch;
- the sidebar: the category filter and the category tree;
- the product context shared by the pages;
- the sign-in page.

Pure logic is written as functions with lemmas. The pages and the store are classes whose
methods change their fields. Loops in the source are `while` or `for` loops here, each
proved against a specification function.

Modules, one per source file:

| module | file | models |
|---|---|---|
| `Types` | types.dfy | the records of types.ts, Option/Result, find/filter/map over sequences |
| `Text` | text.dfy | the JavaScript string primitives the code uses |
| `Ordering` | ordering.dfy | the stable sort by `order` (or by any numeric key) |
| `Slug` | slug.dfy | the slug generators and the unique-slug search |
| `AIConfigStore` | ai_config.dfy | reading and saving the AI configuration (services/storage.ts) |
| `Storage` | storage.dfy | the rest of services/storage.ts |
| `AIService` | ai_service.dfy | services/geminiService.ts |
| `AIConfigPage` | ai_config_page.dfy | pages/admin/AIConfig.tsx |
| `DocViewer` | doc_viewer.dfy | pages/DocViewer.tsx |
| `Editor` | editor.dfy | pages/admin/Editor.tsx |
| `BatchUpload` | batch_upload.dfy | components/BatchUploadModal.tsx |
| `PdfImport` | pdf_import.dfy | components/PdfImportModal.tsx |
| `Menus` | menus.dfy | pages/admin/Menus.tsx |
| `Dashboard` | dashboard.dfy | pages/admin/Dashboard.tsx |
| `Header` | header.dfy | components/Header.tsx |
| `Sidebar` | sidebar.dfy | components/Sidebar.tsx |
| `ProductContext` | product_context.dfy | contexts/ProductContext.tsx |
| `Login` | login.dfy | pages/Login.tsx |

## Model

| member | source | states |
|---|---|---|
| Types.Toggle | pages/admin/Dashboard.tsx:93-101 | Toggling an id flips whether that id is in the set and leaves every other id as it was. |
| Types.ToggleTwice | components/Sidebar.tsx:42-50 | Toggling the same id twice restores the set. |
| Types.Localized | components/Header.tsx:158-166 | In English the English name is shown when it is non-empty; otherwise the Chinese name is shown. |
| Storage.IndexOfId | services/storage.ts:118 | The position found is the first item with the id; the length of the list stands for "none". |
| Storage.UpsertExisting | services/storage.ts:116-121 | Saving an item whose id is present replaces the first such entry in place. The length and every other entry are unchanged. |
| Storage.UpsertNew | services/storage.ts:137-142 | Saving an item with a new id appends it. |
| Storage.UpsertThenLookup | services/storage.ts:179-184 | After a save, the first entry with the saved id is the saved item. |
| Storage.RemoveId | services/storage.ts:122-126 | A delete never makes the list longer. |
| Storage.RemoveIdMember | services/storage.ts:143-147 | An item survives a delete exactly when it was present and has another id. |
| Storage.RemoveIdAppend | services/storage.ts:185-189 | A delete works on each part of a concatenated list separately, keeping the order. |
| Storage.RemoveIdAbsent | services/storage.ts:201-205 | Deleting an absent id changes nothing. |
| Storage.UpsertThenRemove | services/storage.ts:211-221 | Deleting an id right after saving an item with that id gives the same list as deleting it from the original. |
| Storage.UpsertAllSnoc | services/storage.ts:195-200 | Saving one more item after a run of saves is one more save. |
| Storage.UpsertAllAppend | services/storage.ts:195-200 | A run of saves splits at any point into two runs. |
| Storage.UpsertAllFresh | services/storage.ts:195-200 | Saving items with distinct new ids appends them in order. |
| Storage.FeedbackEffect | services/storage.ts:148-161 | A vote adds one to the helpful or the unhelpful counter of the first document with the id, a missing counter counting as 0. Every other document is unchanged, and an unknown id changes nothing. |
| Storage.NewestFirstByAge | services/storage.ts:166 | Ascending by negated timestamp means newest first. |
| Storage.FilterDoc | services/storage.ts:166 | Every version kept belongs to the requested document. |
| Storage.FilterDocAppend | services/storage.ts:166 | The per-document filter distributes over concatenation. |
| Storage.VersionsOfContents | services/storage.ts:163-167 | The versions of a document are newest first, and hold each of its stored versions as often as the store does and nothing else. |
| Storage.FilterDocCount | services/storage.ts:166 | The per-document filter keeps every copy of that document's versions and no other version. |
| Storage.SaveVersionGrows | services/storage.ts:168-173 | Saving a version adds exactly that version to its own document's history, without deduplication, and leaves every other document's history unchanged. |
| Storage.ActivateComplete | services/storage.ts:92-106 | When every user already has a status, the migration maps the list to itself. |
| Storage.FindSlug | services/storage.ts:133-136 | A document found by slug is stored, has that slug and is the first stored document with it; "none" means that no document has it. |
| Storage.Author | pages/admin/Editor.tsx:159 | The author is the signed-in name when it is non-empty, else the fallback name. |
| Storage.ContentStore.constructor | services/storage.ts:112-132 | A store starts with the given collections, no versions and no AI configuration. |
| Storage.ContentStore.SaveProduct | services/storage.ts:116-121 | The products are upserted by id; every other collection is unchanged. |
| Storage.ContentStore.DeleteProduct | services/storage.ts:122-126 | Every product with the id is dropped; every other collection is unchanged. |
| Storage.ContentStore.SaveDoc | services/storage.ts:137-142 | The documents are upserted by id; every other collection is unchanged. |
| Storage.ContentStore.DeleteDoc | services/storage.ts:143-147 | Every document with the id is dropped; every other collection is unchanged. |
| Storage.ContentStore.DocBySlug | services/storage.ts:133-136 | A document found by slug is stored, has that slug and is the first stored document with it; "none" means that no document has it. |
| Storage.ContentStore.SubmitFeedback | services/storage.ts:148-161 | The documents become the result of one vote (see FeedbackEffect); every other collection is unchanged. |
| Storage.ContentStore.DocVersions | services/storage.ts:163-167 | The versions returned are newest first and all belong to the requested document. |
| Storage.ContentStore.SaveDocVersion | services/storage.ts:168-173 | The version is appended to the history; every other collection is unchanged. |
| Storage.ContentStore.SaveCategory | services/storage.ts:179-184 | The categories are upserted by id; every other collection is unchanged. |
| Storage.ContentStore.DeleteCategory | services/storage.ts:185-189 | Every category with the id is dropped; every other collection is unchanged. |
| Storage.ContentStore.SaveTopNavItem | services/storage.ts:195-200 | The top-navigation items are upserted by id; every other collection is unchanged. |
| Storage.ContentStore.DeleteTopNavItem | services/storage.ts:201-205 | Every top-navigation item with the id is dropped; every other collection is unchanged. |
| Storage.ContentStore.SaveUser | services/storage.ts:211-216 | The users are upserted by id; every other collection is unchanged. |
| Storage.ContentStore.DeleteUser | services/storage.ts:217-221 | Every user with the id is dropped; every other collection is unchanged. |
| Storage.ContentStore.MigrateUsers | services/storage.ts:92-106 | Users without a status become active and the others are unchanged. The list is reported changed exactly when some user had no status. |
| Storage.ContentStore.SaveAIConfig | services/storage.ts:281-283 | Reading the configuration back after a save yields the saved configuration; every other collection is unchanged. |
| AIConfigStore.MissingGivesDefault | services/storage.ts:232-241 | Nothing stored, or text that does not parse, yields the default: switched on, Gemini then Bailian, both providers on, empty keys, the default Bailian address. |
| AIConfigStore.LegacyMigration | services/storage.ts:246-262 | The flat legacy shape sends the key and the model (`model || ''`) only to the provider it names, and the other provider gets "" for both. Both providers are on. Bailian is first exactly when it was named. The Bailian base URL is the stored one or the default. The global switch is the old value or off. |
| AIConfigStore.NoPriorityMigration | services/storage.ts:266-273 | Without a priority list, the priority is Bailian first exactly when Bailian was named. Both providers are forced on. Each stored provider field (key, model, base URL) is kept, and each missing one comes from the default. |
| AIConfigStore.CurrentShapeMerge | services/storage.ts:276 | The current shape keeps its priority and global switch. A provider object that is missing takes the default. A stored one replaces it wholesale: every field is the stored value, and a missing field reads as off or "". |
| AIConfigStore.SaveThenResolve | services/storage.ts:281-283 | Saving a configuration and reading it back yields the same configuration. |
| AIConfigStore.ResolveSaveStable | services/storage.ts:232-283 | Whatever was stored, saving what was read and reading again changes nothing. |
| AIService.MissingKeyCallsNothing | services/geminiService.ts:8-35 | An adapter with an empty key fails with "… API Key missing" whatever the transport would answer. |
| AIService.AdapterRequestShape | services/geminiService.ts:12-54 | The prompt and the context are joined only when a context is given. JSON mode is requested exactly in JSON mode. A model name is always set. Bailian sends a system message and then the user message. |
| AIService.BailianUrlShape | services/geminiService.ts:37-38 | The endpoint is the base address (or the default) with every trailing '/' removed, followed by "/chat/completions". |
| AIService.AdapterResponses | services/geminiService.ts:30-71 | A missing text gives "". A non-OK Bailian status fails with "Bailian API Error: <status> <body>". |
| AIService.RunWithFallback | services/geminiService.ts:76-106 | The loop over the priority list returns exactly what the fallback specification gives, including the providers it called. |
| AIService.DisabledCallsNothing | services/geminiService.ts:80-81 | With the global switch off the router fails with "AI features are disabled globally." and calls no provider. |
| AIService.WalkOrder | services/geminiService.ts:86-89 | The providers called are a prefix of the enabled ones in priority order, and every call before the last failed. |
| AIService.WalkSuccess | services/geminiService.ts:91-97 | A success is the answer of the last provider called, which may be "". |
| AIService.WalkFailureCalls | services/geminiService.ts:98-103 | On failure every enabled provider was called once, in order, and each failed. |
| AIService.WalkFailureMessage | services/geminiService.ts:98-105 | The failure message lists one "provider: message" entry per attempt, in order, joined by "; ". |
| AIService.EntriesCons | services/geminiService.ts:100 | The error list grows by one entry per failed provider, at the front of the rest. |
| AIService.FallbackContract | services/geminiService.ts:76-106 | The router's whole promise: priority order, skipped disabled providers, the first answer wins, and the combined failure message. |
| AIService.WalkSucceedsIff | services/geminiService.ts:86-105 | The router succeeds exactly when some enabled provider in the list answers. |
| AIService.CheckConnectionMeaning | services/geminiService.ts:110-126 | The check is true exactly when the named adapter answers a non-empty text. It ignores the priority and every enabled switch. |
| AIService.CheckConnectionOnlyNamed | services/geminiService.ts:116-120 | The check does not depend on the other provider's transport. |
| AIService.TranslateTrims | services/geminiService.ts:147-151 | A translation is the router's answer with the surrounding white space removed; a failure passes through. |
| AIService.Head | services/geminiService.ts:162 | The PDF text sent is a prefix of at most 300000 characters, and all of it when shorter. |
| AIService.PdfPayloadBound | services/geminiService.ts:162-178 | The context is the PDF header followed by a prefix of the text, and the request is in JSON mode. |
| AIService.AnalyzeParseFailure | services/geminiService.ts:180-187 | An answer that does not parse after cleaning fails with "AI response was not valid JSON". A router failure passes through unchanged. |
| AIService.StripFenceHead | services/geminiService.ts:182 | Outside a fence the cleaning copies one character and goes on. |
| AIService.StripFenceFirst | services/geminiService.ts:182 | A cleaned text can start with a backquote only if the input did. |
| AIService.StripFencePair | services/geminiService.ts:182 | A cleaned text can start with two backquotes only if the input did. |
| AIService.StripFenceClean | services/geminiService.ts:182 | Removing every "```" leaves no "```" behind. |
| AIService.StripFencesClean | services/geminiService.ts:182 | The cleaned answer contains no code fence. |
| AIService.BuildSiteContext | services/geminiService.ts:192-205 | The loop builds the published documents' blocks in store order, truncated as the limit says. |
| AIService.SiteTextAppend | services/geminiService.ts:198-200 | The site text of two lists of documents is the concatenation of their site texts. |
| AIService.SiteContextPublishedOnly | services/geminiService.ts:192 | A document that is not published adds nothing to the context; a published one adds its block at the end. |
| AIService.TruncateShape | services/geminiService.ts:203-205 | A context over 200000 characters keeps exactly its first 200000 and ends with the truncation marker; a shorter one is unchanged. |
| AIService.ChatWithSiteContent | services/geminiService.ts:190-228 | The chat sends the prompt built from the truncated published context, the history and the question through the router, with no separate context. |
| AIConfigPage.PerProvider.With | pages/admin/AIConfig.tsx:67-68 | Setting one provider's entry changes it and leaves the other provider's entry as it was. |
| AIConfigPage.MoveSwaps | pages/admin/AIConfig.tsx:46-52 | Moving up swaps an entry with the one before it, and moving down with the one after it. Nothing else moves. |
| AIConfigPage.MoveAtBoundary | pages/admin/AIConfig.tsx:47-53 | Moving the first entry up, or the last entry down, leaves the list unchanged. |
| AIConfigPage.MovePermutes | pages/admin/AIConfig.tsx:47-53 | Every move yields a permutation of the list. |
| AIConfigPage.SwapPermutes | pages/admin/AIConfig.tsx:49-51 | Swapping two neighbours keeps the multiset of providers. |
| AIConfigPage.MoveUpThenDown | pages/admin/AIConfig.tsx:46-54 | Moving an entry up and then down again restores the list. |
| AIConfigPage.ToggleProvider | pages/admin/AIConfig.tsx:56-64 | Only the named provider's switch flips; the global switch, the priority and the other provider are unchanged. |
| AIConfigPage.ToggleTwice | pages/admin/AIConfig.tsx:56-64 | Toggling a provider twice restores the configuration. |
| AIConfigPage.UpdateProvider | pages/admin/AIConfig.tsx:36-44 | Exactly one field of one provider changes. The global switch, the priority and the other provider are unchanged. |
| AIConfigPage.AIConfigForm.constructor | pages/admin/AIConfig.tsx:26-28 | The page starts from the stored configuration, with no check running and no result. |
| AIConfigPage.AIConfigForm.MovePriority | pages/admin/AIConfig.tsx:46-54 | The form's priority becomes the moved list; nothing else changes. |
| AIConfigPage.AIConfigForm.ToggleProviderEnabled | pages/admin/AIConfig.tsx:56-64 | The form's configuration becomes the toggled one; nothing else changes. |
| AIConfigPage.AIConfigForm.UpdateProviderConfig | pages/admin/AIConfig.tsx:36-44 | The form's configuration becomes the updated one; nothing else changes. |
| AIConfigPage.AIConfigForm.HandleSave | pages/admin/AIConfig.tsx:30-34 | The edited configuration is stored and the page shows it as saved. Only the stored configuration and the saved flag change. |
| AIConfigPage.AIConfigForm.HandleCheckConnection | pages/admin/AIConfig.tsx:66-77 | The edited configuration is stored before the check. The provider's result is "success" exactly when the check returned true, else "error", and its spinner stops. Only the stored configuration, the statuses and the spinners change. |
| DocViewer.NormalizeNewlines | pages/DocViewer.tsx:176 | The normalised text holds no carriage return. |
| DocViewer.NormalizeKeepsUnixText | pages/DocViewer.tsx:176 | Text without a carriage return is unchanged. |
| DocViewer.NormalizeIdempotent | pages/DocViewer.tsx:176 | Normalising twice is normalising once. |
| DocViewer.SpaceRunEndMeaning | pages/DocViewer.tsx:182 | The white-space run from a position is all white space and stops at the end of the text or at a character that is not. |
| DocViewer.LastNewlineMeaning | pages/DocViewer.tsx:182 | The LF found is the last of its range, and when none is found the range holds no LF: where a greedy white-space run followed by LF stops. |
| DocViewer.CloseAtMeaning | pages/DocViewer.tsx:182 | A closing fence at a position is LF, "---", white space, and then an LF or the end of the text. |
| DocViewer.FirstCloseMeaning | pages/DocViewer.tsx:182 | The lazy group ends at the first position where a closing fence matches; with no group, the fence matches nowhere. |
| DocViewer.TryOpeningsMeaning | pages/DocViewer.tsx:182 | The greedy opening takes the last LF of the white-space run whose group some closing fence ends; no later LF has one, and with no match no LF has one. |
| DocViewer.MatchFenceShape | pages/DocViewer.tsx:182-183 | A front-matter match starts the text with "---" and white space up to an LF. Its group ends at the first closing LF "---" line, and the match ends after the trailing white space and LF, or at the end. |
| DocViewer.MatchFenceComplete | pages/DocViewer.tsx:182-183 | Whenever an opening fence line and some closing fence exist, the pattern matches. |
| DocViewer.StripFrontMatterMeaning | pages/DocViewer.tsx:179-192 | Without a match, or when the YAML loader fails, the content is unchanged. Otherwise the metadata is the loader's result on the group, and the content is what follows the match. |
| DocViewer.FirstLinkClose | pages/DocViewer.tsx:196 | The lazy link body ends at the first "]]" at or after a position. |
| DocViewer.LinkAt | pages/DocViewer.tsx:196 | A link starts with "[[", holds at least one character, and closes at the first "]]". |
| DocViewer.RewritePlainPrefix | pages/DocViewer.tsx:196-230 | Text without '[' is copied unchanged ahead of the rewrite of the rest. |
| DocViewer.RewriteNoLinks | pages/DocViewer.tsx:196-230 | Content without "[[" is unchanged. |
| DocViewer.RewriteAvoiding | pages/DocViewer.tsx:196-230 | Content in which "[[" never occurs is unchanged. |
| DocViewer.RewriteOneLink | pages/DocViewer.tsx:196-230 | A link after plain text is replaced by its rendering, and the rest is rewritten in turn. |
| DocViewer.RewriteAtLink | pages/DocViewer.tsx:196-230 | At a link, the rewrite renders its body and continues after the closing "]]". |
| DocViewer.LinkCloses | pages/DocViewer.tsx:196 | A body that does not contain "]]" closes right after itself. |
| DocViewer.FirstPart | pages/DocViewer.tsx:199-200 | The target part is a prefix of the link body and holds no '\|'. |
| DocViewer.SecondPart | pages/DocViewer.tsx:199-201 | The label part exists exactly when the body holds a '\|', and holds no '\|' itself. |
| DocViewer.LinkHrefRoute | pages/DocViewer.tsx:214-227 | Every rewritten link points into "/docs/". |
| DocViewer.LinkHrefFound | pages/DocViewer.tsx:207-216 | A link goes to the first document whose trimmed title or slug equals the cleaned target, ignoring case. |
| DocViewer.LinkHrefFallback | pages/DocViewer.tsx:217-227 | When no document answers, the link goes to the slug generated from the target, which is a clean slug. |
| DocViewer.DisplayAndTarget | pages/DocViewer.tsx:199-212 | Without a '\|' the text shown is the trimmed body. Neither the text shown nor the target holds a '\|'. |
| DocViewer.TrimNoBar | pages/DocViewer.tsx:200 | Trimming adds no '\|'. |
| DocViewer.DropMdNoBar | pages/DocViewer.tsx:204 | Dropping a ".md" suffix adds no '\|'. |
| DocViewer.CleanContentPlain | pages/DocViewer.tsx:172-233 | Content with no carriage return, no leading fence and no "[[" is rendered unchanged, with no metadata. |
| DocViewer.ClassifyLink | pages/DocViewer.tsx:314-319 | An empty address is no link. Addresses starting with "http", "//" or "www." are off-site, and "www." gains "http://". Every other address is on-site and unchanged. |
| DocViewer.WikiLinksAreInternal | pages/DocViewer.tsx:314-319 | Every rewritten wiki link is classified as on-site. |
| DocViewer.DocsRouteIsOnSite | pages/DocViewer.tsx:318 | Any "/docs/" address is on-site. |
| DocViewer.Viewer.constructor | pages/DocViewer.tsx:122-130 | The page starts with no document, no list and no feedback given. |
| DocViewer.Viewer.Open | pages/DocViewer.tsx:132-162 | Opening a slug (the default slug when empty) shows the document with that slug. A missing default falls back to the first document and redirects to it. The document's category, when found, selects its non-empty product and top-navigation item. Feedback is reset. |
| DocViewer.Viewer.HandleFeedback | pages/DocViewer.tsx:164-169 | The first vote on a shown document is recorded in the store and marks feedback as given. Any later vote, or a vote with no document, changes nothing. Only the stored documents and the feedback flag can change. |
| Editor.ReplayAppend | pages/admin/Editor.tsx:122-142 | Replaying two runs of edits is replaying their concatenation. |
| Editor.TouchedSticks | pages/admin/Editor.tsx:128-141 | Once the slug is touched it stays touched, and title edits no longer change it. |
| Editor.UntouchedFollowsTitle | pages/admin/Editor.tsx:122-130 | Until the slug is touched, it is the slug generated from the latest title, and so a clean slug. |
| Editor.HandEditWins | pages/admin/Editor.tsx:139-142 | A hand-typed slug survives every later title edit. |
| Editor.CleanAiSlugShape | pages/admin/Editor.tsx:113 | The cleaned AI slug holds no backquote and has no white space at either end. |
| Editor.TrimSubset | pages/admin/Editor.tsx:113 | Trimming adds no character that was absent. |
| Editor.CleanAiSlugIdempotent | pages/admin/Editor.tsx:113 | Cleaning an AI slug twice is cleaning it once. |
| Editor.EnglishSlug | pages/admin/Editor.tsx:106-120 | No AI call happens for an empty title or with AI off. A new slug exists exactly when the suggestion succeeds, and it holds no backquote. |
| Editor.VersionLabel | pages/admin/Editor.tsx:148-150 | The version label is the document's version (or "1.0.0") followed by "-" and the time marker. |
| Editor.Restored | pages/admin/Editor.tsx:173-185 | A restore takes the title, content and version from the chosen version and keeps every other field of the document. |
| Editor.SaveThenRestore | pages/admin/Editor.tsx:144-185 | Restoring the version a save just made brings back the saved document, except for the new version label. |
| Editor.NewDraft | pages/admin/Editor.tsx:18-28 | A new document is an empty draft at version "1.0.0", stamped with the time, by the signed-in user or else "Admin". |
| Editor.StoredDoc | pages/admin/Editor.tsx:66-69 | An id other than "new" loads the stored document with that id, when there is one. |
| Editor.CategoryPath | pages/admin/Editor.tsx:74-79 | The product and top-navigation item of the document's category, when that category exists; otherwise neither. |
| Editor.DefaultProduct | pages/admin/Editor.tsx:81-86 | A new document preselects the first product, when there is one. |
| Editor.EditorPage.constructor | pages/admin/Editor.tsx:57-87 | A stored document is loaded with its versions, its touched slug and its category path. Otherwise the page holds a new draft with an untouched slug and the first product preselected. |
| Editor.EditorPage.HandleTitleChange | pages/admin/Editor.tsx:122-130 | A title edit is one step of the slug rule, and nothing but the title and slug changes. |
| Editor.EditorPage.HandleSlugChange | pages/admin/Editor.tsx:139-142 | A slug edit sets the slug and marks it touched. |
| Editor.EditorPage.GenerateEnglishSlug | pages/admin/Editor.tsx:106-120 | The slug becomes the cleaned AI slug when one was produced; otherwise the document is unchanged. |
| Editor.EditorPage.HandleTitleBlur | pages/admin/Editor.tsx:132-137 | Leaving the title asks for an English slug only while the slug is untouched. |
| Editor.EditorPage.HandleSave | pages/admin/Editor.tsx:144-171 | Saving appends an automatic version and upserts the document stamped with the same time. The saved document can then be looked up by id, and the page then moves to the admin list. |
| Editor.EditorPage.SelectProduct | pages/admin/Editor.tsx:291 | Choosing a product clears the top-navigation item. |
| Editor.EditorPage.SelectTopNav | pages/admin/Editor.tsx:308 | Choosing an item records it. |
| Editor.EditorPage.SelectCategory | pages/admin/Editor.tsx:327 | Choosing a category files the document under it and changes no other field of it. |
| Editor.EditorPage.AskRestore | pages/admin/Editor.tsx:54 | Choosing a version to restore opens the confirmation for it. |
| Editor.EditorPage.HandleRestore | pages/admin/Editor.tsx:173-185 | A confirmed restore applies the version, closes the history and clears the confirmation; without a version nothing changes. |
| Editor.EditorPage.HandleAiGenerate | pages/admin/Editor.tsx:187-200 | An empty prompt does nothing. A successful suggestion replaces the content and closes the dialog; a failure shows the error alert and keeps the document, the prompt and the dialog. |
| BatchUpload.AddFiles | components/BatchUploadModal.tsx:55-60 | Picking files keeps the current list as a prefix and appends only ".md" files. |
| BatchUpload.AddFilesMember | components/BatchUploadModal.tsx:57 | A file is appended exactly when it was picked and its name ends in ".md". |
| BatchUpload.RemoveAt | components/BatchUploadModal.tsx:62-64 | Removing an index in range drops that one file and keeps the others in order. Any other index changes nothing. |
| BatchUpload.SpaceEnd | components/BatchUploadModal.tsx:103 | Gives the end of the white-space run that follows a position. |
| BatchUpload.LineEnd | components/BatchUploadModal.tsx:103 | Gives the end of the line: the first line terminator, or the end of the text. |
| BatchUpload.LastTextStart | components/BatchUploadModal.tsx:103 | Gives the last position of a range where the greedy white-space run can stop before text. |
| BatchUpload.HeadingAt | components/BatchUploadModal.tsx:103 | A heading match starts a line with '#', and its captured text is non-empty and stays on one line. |
| BatchUpload.FirstHeading | components/BatchUploadModal.tsx:103 | A position found is one where the heading pattern matches. |
| BatchUpload.FirstHeadingMeaning | components/BatchUploadModal.tsx:103 | The position found is the first where the heading pattern matches, and "none" means that it matches nowhere. |
| BatchUpload.TitleFromFirstLine | components/BatchUploadModal.tsx:103-104 | A file that opens with "# " and a line of text takes that line, trimmed, as its title. |
| BatchUpload.LineEndAt | components/BatchUploadModal.tsx:103 | The line ends at the first line terminator. |
| BatchUpload.TitleWithoutHeading | components/BatchUploadModal.tsx:104 | A file with no heading takes its name without the ".md" ending as its title. |
| BatchUpload.BaseSlugShape | components/BatchUploadModal.tsx:106 | The base slug is never empty, and it is a clean slug whenever it comes from the title. |
| BatchUpload.ImportAsWritten | components/BatchUploadModal.tsx:99-125 | Makes one document per file, checking each slug only against the documents that existed before the submission. |
| BatchUpload.ImportAsWrittenStep | components/BatchUploadModal.tsx:100-125 | Each file adds one document, whose slug is the first one free among the documents read before the loop. |
| BatchUpload.AsWrittenMakesDocs | components/BatchUploadModal.tsx:115-125 | Every document the dialog makes carries its file's title and content, the chosen category, the Published status, version "1.0.0", the submission time, the author and its drawn id. |
| BatchUpload.AsWrittenSlugsFree | components/BatchUploadModal.tsx:106-113 | No slug the dialog makes is used by a document stored before the submission. |
| BatchUpload.AsWrittenDuplicates | components/BatchUploadModal.tsx:99-113 | Under the as-written check, the same file submitted twice gives two documents with the same slug. |
| BatchUpload.Import | components/BatchUploadModal.tsx:99-125 | Makes one document per file, checking each slug also against the documents already made in the same submission. |
| BatchUpload.ImportStep | components/BatchUploadModal.tsx:100-125 | Each file adds one document, whose slug is the first free one among the earlier documents and those made so far. |
| BatchUpload.ImportMakesDocs | components/BatchUploadModal.tsx:115-125 | Every document carries its file's title and content, the chosen category, the Published status, version "1.0.0", the submission time, the author and its drawn id. |
| BatchUpload.ImportedAppend | components/BatchUploadModal.tsx:100-125 | The file-to-document correspondence extends by one file at a time. |
| BatchUpload.ImportSlugsUnique | components/BatchUploadModal.tsx:106-113 | Every imported slug is unused by the earlier documents and by the documents made before it in the same submission. |
| BatchUpload.FreshAppend | components/BatchUploadModal.tsx:108-113 | Appending a document whose slug is free keeps all slugs fresh. |
| BatchUpload.SubmitError | components/BatchUploadModal.tsx:86-95 | An empty file list is the "no files" error. Files with a missing product, item or category are the selection error. Otherwise there is no error. |
| BatchUpload.UploadForm.constructor | components/BatchUploadModal.tsx:34-47 | Opening the dialog loads the items and categories, and clears the files, the selection and the error. |
| BatchUpload.UploadForm.SelectProduct | components/BatchUploadModal.tsx:207 | Choosing a product clears the item and category choices. |
| BatchUpload.UploadForm.SelectTopNav | components/BatchUploadModal.tsx:223 | Choosing an item keeps the product and clears the category choice. |
| BatchUpload.UploadForm.SelectCategory | components/BatchUploadModal.tsx:240 | Choosing a category keeps the product and item. |
| BatchUpload.UploadForm.HandleFileChange | components/BatchUploadModal.tsx:55-60 | A pick adds its ".md" files to the list; no pick changes nothing. |
| BatchUpload.UploadForm.RemoveFile | components/BatchUploadModal.tsx:62-64 | Removing a file in range drops that file only. |
| BatchUpload.UploadForm.HandleSubmit | components/BatchUploadModal.tsx:86-135 | With no file, or an incomplete selection, that error is shown and nothing is saved. Otherwise the documents the dialog makes are saved in order up to the first file whose reading or saving fails; then the failure message is shown, the documents saved so far stay and the dialog stays open. Without a failure every document is saved and the dialog closes. Only the stored documents and the error change. |
| BatchUpload.SaveFiles | components/BatchUploadModal.tsx:99-126 | The loop saves, in order, exactly the documents ImportAsWritten makes from the files before the first failure, and reports whether a failure cut it short. |
| PdfImport.GroupName | components/PdfImportModal.tsx:106 | A document's group is its category name, or "General" when that name is empty, so it is never empty. |
| PdfImport.GroupNamesLast | components/PdfImportModal.tsx:105-109 | A document opens a new group only when its group name has not been seen. |
| PdfImport.GroupNamesMember | components/PdfImportModal.tsx:104-109 | A group exists exactly when some document belongs to it. |
| PdfImport.GroupNamesDistinct | components/PdfImportModal.tsx:104-109 | No group name occurs twice. |
| PdfImport.FirstIndexSnoc | components/PdfImportModal.tsx:105-109 | The first match in a list with one more element stays where it was, or else is the new element when it matches. |
| PdfImport.GroupsInFirstOccurrenceOrder | components/PdfImportModal.tsx:104-115 | Groups are visited in the order of their first document, which is the insertion order of a JavaScript Map. |
| PdfImport.EachDocOneGroup | components/PdfImportModal.tsx:105-109 | Every document belongs to exactly one group. |
| PdfImport.MembersStep | components/PdfImportModal.tsx:108 | A document is appended to its own group's list only. |
| PdfImport.NoMembers | components/PdfImportModal.tsx:105-109 | A name no document carries has no members. |
| PdfImport.GroupStepNew | components/PdfImportModal.tsx:107-108 | A document with an unseen group name opens that group with itself as its only member. |
| PdfImport.MembersStepAll | components/PdfImportModal.tsx:108 | A document is appended to its own group's list and to no other. |
| PdfImport.GroupStepOld | components/PdfImportModal.tsx:107 | A document of a seen group adds no name, and that name occurs at one position only. |
| PdfImport.GroupDocs | components/PdfImportModal.tsx:104-109 | The grouping loop gives the group names in first-occurrence order, each with its documents in input order. |
| PdfImport.FirstOrder | components/PdfImportModal.tsx:112-113 | The first new order is one more than the number of categories already under the item. |
| PdfImport.PlannedCategoriesShape | components/PdfImportModal.tsx:115-125 | One root category per group, named after it, in the chosen product and item, with orders rising by one. |
| PdfImport.PlannedDocsHasGroup | components/PdfImportModal.tsx:128-141 | Every member of every group is saved, under its group's category. |
| PdfImport.PlannedDocsGrow | components/PdfImportModal.tsx:114-140 | A document saved for the first groups is still among the saved documents after later groups are saved. |
| PdfImport.EveryDocSaved | components/PdfImportModal.tsx:105-141 | Every analysed document is saved under the category of its own group. |
| PdfImport.PlannedDocsSound | components/PdfImportModal.tsx:128-141 | Every saved document comes from a member of some group. |
| PdfImport.PlannedDocsNext | components/PdfImportModal.tsx:115-142 | Each group adds its own documents after those of the earlier groups. |
| PdfImport.PlannedCategoryAt | components/PdfImportModal.tsx:117-125 | The i-th planned category is the new category of the i-th group, with order equal to the first order plus i. |
| PdfImport.SaveGroupDocs | components/PdfImportModal.tsx:128-141 | The loop saves one group's documents in order and leaves the categories unchanged. |
| PdfImport.SaveGroups | components/PdfImportModal.tsx:112-142 | The categories gain exactly the planned categories, and the documents exactly the planned documents, in order. |
| PdfImport.Analysis | components/PdfImportModal.tsx:90-92 | A failed text extraction fails the analysis. |
| PdfImport.PdfImportForm.constructor | components/PdfImportModal.tsx:38-49 | The dialog opens on the upload step with no file, no analysis, no error and no selection. |
| PdfImport.PdfImportForm.SelectProduct | components/PdfImportModal.tsx:177 | Choosing a product clears the item choice. |
| PdfImport.PdfImportForm.SelectTopNav | components/PdfImportModal.tsx:191 | Choosing an item records it. |
| PdfImport.PdfImportForm.HandleFileChange | components/PdfImportModal.tsx:53-63 | No pick changes nothing. A non-PDF pick keeps the file and sets the error. A PDF is taken and clears the error. |
| PdfImport.PdfImportForm.StartAnalysis | components/PdfImportModal.tsx:83-100 | A missing file, product or item is an error and nothing else changes. Otherwise a successful analysis moves to review with its documents, and a failure returns to upload with an error. |
| PdfImport.PdfImportForm.HandleImport | components/PdfImportModal.tsx:102-146 | The store gains one category per group, numbered after the item's existing ones, and every analysed document under its group's category. |
| Slug.CollapseRuns | components/BatchUploadModal.tsx:70-72 | Replacing runs by one character keeps an empty text empty, and the result starts with the replacement exactly when the text starts with a run or with that character. |
| Slug.KeepSlugChars | components/BatchUploadModal.tsx:71 | Only word characters, dashes and CJK ideographs remain. |
| Slug.CollapseDashRunsNoDouble | components/BatchUploadModal.tsx:72 | After dash runs are collapsed, no two dashes are adjacent. |
| Slug.CollapseRunsAll | components/BatchUploadModal.tsx:70-72 | Collapsing runs keeps a property every other character has. |
| Slug.DropDashesAll | components/BatchUploadModal.tsx:73-74 | Dropping edge dashes keeps a property every character has. |
| Slug.DropDashesShape | components/BatchUploadModal.tsx:73-74 | Dropping the leading and trailing dashes of a text without double dashes leaves no dash at either end and none doubled. |
| Slug.LowerTrimNoUpper | components/BatchUploadModal.tsx:68-69 | Lower-casing then trimming leaves no ASCII capital. |
| Slug.KeepSlugCharsAll | components/BatchUploadModal.tsx:71 | Filtering a text without capitals leaves only lower-case slug characters. |
| Slug.SlugChainIsClean | pages/DocViewer.tsx:220-225 | The wiki-link fallback chain on a text without capitals gives a clean slug: only slug characters, no capital, no doubled dash, no dash at either end. |
| Slug.GenerateSlugIsClean | components/BatchUploadModal.tsx:66-75 | Every generated slug is clean. |
| Slug.CollapseRunsKeeps | components/BatchUploadModal.tsx:70-72 | Collapsing runs neither adds nor removes a kept character. |
| Slug.FilterTwice | components/BatchUploadModal.tsx:71 | The kept characters of the filtered text are the kept characters of the text. |
| Slug.TrimKeeps | components/BatchUploadModal.tsx:69 | Trimming removes no kept character. |
| Slug.DropDashesKeeps | components/BatchUploadModal.tsx:73-74 | Dropping edge dashes removes no kept character. |
| Slug.GenerateSlugKeeps | components/BatchUploadModal.tsx:66-75 | The generated slug holds, in order, exactly the word and CJK characters of the lower-cased title. |
| Slug.SlugChainKeeps | pages/DocViewer.tsx:220-225 | The fallback chain holds, in order, exactly the word and CJK characters of its input. |
| Slug.CollapseDashesNoop | components/BatchUploadModal.tsx:72 | A text without double dashes is unchanged by the collapse. |
| Slug.CleanSlugFixed | pages/admin/Editor.tsx:94-103 | A clean slug is its own generated slug. |
| Slug.SlugChainFixed | pages/DocViewer.tsx:220-225 | A clean slug is unchanged by the fallback chain. |
| Slug.GenerateSlugIdempotent | pages/admin/Editor.tsx:94-103 | Generating a slug from a generated slug gives it back. |
| Slug.LastFour | components/PdfImportModal.tsx:129 | The last four characters of a text, or all of it when shorter. |
| Slug.AsciiRunsNoDouble | components/PdfImportModal.tsx:129 | After runs of non-alphanumeric characters become one dash, no two dashes are adjacent. |
| Slug.PdfSlugShape | components/PdfImportModal.tsx:129 | A PDF slug is a core of lower-case ASCII letters, digits and single inner dashes, then "-" and the last one to four digits of the time. |
| Slug.CandidateInjective | components/BatchUploadModal.tsx:111 | Different counters give different suffixed slugs. |
| Slug.AttemptsDistinct | components/BatchUploadModal.tsx:108-113 | The loop never tries the same slug twice. |
| Slug.UniqueSlug | components/BatchUploadModal.tsx:108-113 | The counter loop stops, and returns the free slug of the specification function. |
| Slug.FreeSlugUnused | components/BatchUploadModal.tsx:110 | The slug found is used by no document. |
| Slug.FreeSlugMeaning | components/BatchUploadModal.tsx:108-113 | A free base slug is kept. Otherwise the result is the base with the first counter whose suffixed slug is free, every smaller counter being taken. |
| Slug.FreeFromMeaning | components/BatchUploadModal.tsx:108-113 | From any counter reached by the loop, the search ends on a free slug with the least free counter. |
| Slug.TriedStep | components/BatchUploadModal.tsx:110-112 | Each taken attempt adds one used slug to those tried, so the counter stays within the number of slugs in use. |
| Text.LowerChar | components/BatchUploadModal.tsx:68 | A lower-cased character is never an ASCII capital, and any other character is unchanged. |
| Text.Lower | components/BatchUploadModal.tsx:68 | Lower-casing keeps the length and lower-cases each character in place. |
| Text.LowerIdentity | components/BatchUploadModal.tsx:68 | A text without ASCII capitals is unchanged. |
| Text.TrimStart | services/geminiService.ts:151 | Dropping leading white space leaves a suffix that starts with a non-space, and what was dropped is all white space. |
| Text.TrimEnd | services/geminiService.ts:151 | Dropping trailing white space leaves a prefix that ends with a non-space, and what was dropped is all white space. |
| Text.TrimOffset | services/geminiService.ts:151 | The number of leading white-space characters is within the text. |
| Text.Trim | components/BatchUploadModal.tsx:69 | The trimmed text is a slice of the original. |
| Text.TrimShape | components/BatchUploadModal.tsx:69 | Only white space is cut at either end, and a non-empty result starts and ends with a non-space. |
| Text.TrimIdentity | components/BatchUploadModal.tsx:69 | A text that starts and ends with a non-space is unchanged by trimming. |
| Text.DropWhile | components/BatchUploadModal.tsx:73 | Dropping a leading run leaves a suffix that does not start with the run's character class. |
| Text.DropWhileEnd | components/BatchUploadModal.tsx:74 | Dropping a trailing run leaves a prefix that does not end with the run's character class. |
| Text.AvoidsSuffix | pages/DocViewer.tsx:196 | A suffix of a text without a pattern lacks it too. |
| Text.AvoidsPrefix | pages/DocViewer.tsx:196 | A prefix of a text without a pattern lacks it too. |
| Text.AvoidsNotContains | pages/DocViewer.tsx:196 | The recursive "pattern absent" test agrees with "no occurrence at any position". |
| Text.HeadAbsentNotContains | pages/DocViewer.tsx:176 | A pattern whose first character is absent does not occur. |
| Text.ReplaceAllAbsent | pages/DocViewer.tsx:176 | Replacing an absent pattern changes nothing. |
| Text.ReplaceAllCharGone | pages/admin/Editor.tsx:113 | After every occurrence of a character is replaced by text without it, the character is gone. |
| Text.Join | services/geminiService.ts:105 | Joining one part gives it back; joining none gives the empty text. |
| Text.DecimalString | pages/Login.tsx:97 | The decimal form of a number is a non-empty run of digits. |
| Text.DecimalRoundTrip | pages/Login.tsx:97 | Reading back a number's decimal form gives the number. |
| Text.DecimalInjective | pages/Login.tsx:97 | Different numbers have different decimal forms. |
| Text.DropMdSuffix | components/BatchUploadModal.tsx:104 | Removing the ".md" ending, in any letter case, cuts three characters or none. |
| Ordering.AscendingSnoc | pages/admin/Menus.tsx:49 | Appending an element no smaller than the others keeps a list ascending. |
| Ordering.AscendingPrefix | pages/admin/Menus.tsx:49 | The prefix of an ascending list is ascending, and its elements are at most the last key. |
| Ordering.Insert | pages/admin/Menus.tsx:49 | Inserting adds the element once and keeps every other element. |
| Ordering.InsertAtMost | pages/admin/Menus.tsx:49 | Inserting keeps a common upper bound. |
| Ordering.InsertAscending | pages/admin/Menus.tsx:49 | Inserting into an ascending list keeps it ascending. |
| Ordering.SortBySorts | pages/admin/Menus.tsx:49-56 | Sorting by order gives an ascending permutation of its input. |
| Ordering.SortBySnoc | pages/admin/Menus.tsx:49 | Sorting a list is inserting its last element into the sorted rest. |
| Ordering.InsertLargest | pages/admin/Menus.tsx:49 | An element no smaller than the others is inserted at the end, so equal keys keep their input order. |
| Ordering.SortByAscendingUnchanged | components/Sidebar.tsx:57 | An already ascending list comes back unchanged. |
| Ordering.SortedPrefixExtends | components/Sidebar.tsx:57 | An ascending list whose prefix is unchanged by sorting is itself unchanged. |
| Ordering.SortByIdempotent | components/Header.tsx:51 | Sorting twice is sorting once. |
| Ordering.SortByMember | components/Header.tsx:118 | An element is in the sorted list exactly when it is in the input. |
| Ordering.FirstIsLeast | components/Header.tsx:118-123 | The first element of an ascending list has the least order. |
| Ordering.FilterAscending | components/Header.tsx:127 | Filtering an ascending list keeps it ascending. |
| Menus.ProductOf | pages/admin/Menus.tsx:73-78 | A document counts toward a product only when it has a category. |
| Menus.NavOf | pages/admin/Menus.tsx:73-82 | A document counts toward an item only when it has a category. |
| Menus.TallySnoc | pages/admin/Menus.tsx:67-85 | Each document adds one to its own key's counter, or nothing when it has no key. |
| Menus.FilterSingle | pages/admin/Menus.tsx:67-85 | Filtering one document keeps it exactly when it passes. |
| Menus.TallySize | pages/admin/Menus.tsx:67-85 | The counters add up to the number of documents that have a key. |
| Menus.TallyCount | pages/admin/Menus.tsx:70 | A key's counter is the number of documents with that key. |
| Menus.TallyDominated | pages/admin/Menus.tsx:69-83 | When every document with one key also has the other, the first total is at most the second. |
| Menus.CountsMeaning | pages/admin/Menus.tsx:62-87 | A category's count is the number of its documents. The category counts add up to the documents with a category, and the product and item totals never exceed that. |
| Menus.ProductCountMeaning | pages/admin/Menus.tsx:69-78 | A document counts toward a product exactly when its category id is set, that category exists, and the first category with the id has a product. It then counts toward that product. |
| Menus.CountKeys | pages/admin/Menus.tsx:69-83 | A document with no category counts toward nothing. Otherwise it counts toward the non-empty product and item of the first category with its id. |
| Menus.CountDocs | pages/admin/Menus.tsx:62-87 | The counting loop computes exactly the three tallies. |
| Types.NavsOfMember | pages/admin/Menus.tsx:91 | An item is listed exactly when it belongs to the chosen product (the same filter offers items in the batch upload and PDF import dialogs). |
| Types.CategoriesOfMember | pages/admin/Menus.tsx:93 | A category is listed exactly when it belongs to the chosen product and item (the same filter offers categories in the batch upload dialog). |
| Menus.ParentOrNone | pages/admin/Menus.tsx:158 | An empty parent id is saved as no parent; any other parent is kept. |
| Menus.NewNav | pages/admin/Menus.tsx:122-130 | A new item belongs to the chosen product, is internal with path "/docs/", has empty labels, comes after the listed items and has a time-stamped id. |
| Menus.NewCategory | pages/admin/Menus.tsx:144-152 | A new category is a root in the chosen product and item, has empty names, comes after the listed categories and has a time-stamped id. |
| Menus.NavToSave | pages/admin/Menus.tsx:133 | The saved item is the edited one moved to the chosen product, and nothing else changes. |
| Menus.CategoryToSave | pages/admin/Menus.tsx:156-161 | The saved category is the edited one moved to the chosen product and item, with an empty parent made "none", and nothing else changes. |
| Menus.SavedNavListed | pages/admin/Menus.tsx:131-136 | After a save and a reload, the saved item is listed under its product. |
| Menus.SavedCategoryListed | pages/admin/Menus.tsx:154-165 | After a save and a reload, the saved category is listed under its product and item. |
| Menus.RemovedNavNotListed | pages/admin/Menus.tsx:170-182 | After a delete and a reload, no item with that id is listed. |
| Menus.RemovedCategoryNotListed | pages/admin/Menus.tsx:170-182 | After a delete and a reload, no category with that id is listed. |
| Menus.MenusPage.constructor | pages/admin/Menus.tsx:43-46 | The page loads the sorted products, items and categories with their counts, preselects the first product, and reads whether AI is on. |
| Menus.MenusPage.LoadData | pages/admin/Menus.tsx:48-88 | The lists are reloaded in ascending order with fresh counts, and the first product is chosen when none was. |
| Menus.MenusPage.SelectProduct | pages/admin/Menus.tsx:205 | Choosing a product clears the item choice. |
| Menus.MenusPage.SelectTopNav | pages/admin/Menus.tsx:284 | Choosing an item records it. |
| Menus.MenusPage.HandleEditNav | pages/admin/Menus.tsx:121 | The item is opened for editing. |
| Menus.MenusPage.HandleNewNav | pages/admin/Menus.tsx:122-130 | A new item is opened for editing. |
| Menus.MenusPage.HandleSaveNav | pages/admin/Menus.tsx:131-137 | Without an open item nothing changes. Otherwise the item is saved under the chosen product, the editor closes, the page reloads, and the item is then listed. |
| Menus.MenusPage.HandleDeleteNav | pages/admin/Menus.tsx:138-140 | Deleting an item asks for confirmation first. |
| Menus.MenusPage.HandleEditCat | pages/admin/Menus.tsx:143 | The category is opened for editing. |
| Menus.MenusPage.HandleNewCat | pages/admin/Menus.tsx:144-152 | A new category is opened for editing. |
| Menus.MenusPage.HandleSaveCat | pages/admin/Menus.tsx:154-165 | Without an open category nothing changes. Otherwise the category is saved under the chosen product and item, the editor closes, the page reloads, and the category is then listed. |
| Menus.MenusPage.StoreCategory | pages/admin/Menus.tsx:154-165 | The write and reload of a save: the category is upserted, and afterwards it is listed under its own product and item. |
| Menus.MenusPage.HandleDeleteCat | pages/admin/Menus.tsx:166-168 | Deleting a category asks for confirmation first. |
| Menus.MenusPage.CancelDelete | pages/admin/Menus.tsx:410 | Cancelling drops the pending delete. |
| Menus.MenusPage.ConfirmDelete | pages/admin/Menus.tsx:170-182 | Without a pending delete nothing changes. An item delete removes it and clears its selection; a category delete removes it. Either way the page reloads and the deleted id is no longer listed. |
| Menus.MenusPage.RemoveNav | pages/admin/Menus.tsx:170-182 | The item half of the delete: the item leaves the store, a selection of it is cleared, and after the reload no listed item has its id. |
| Menus.MenusPage.RemoveCategory | pages/admin/Menus.tsx:170-182 | The category half of the delete: the category leaves the store, and after the reload no listed category has its id. |
| Menus.MenusPage.AutoTranslateNav | pages/admin/Menus.tsx:96-102 | An item with an empty label is left alone. Otherwise a translation fills its English label and ends the busy state; a failure leaves it busy and unchanged. |
| Menus.MenusPage.AutoTranslateCat | pages/admin/Menus.tsx:104-110 | A category with an empty name is left alone. Otherwise a translation fills its English name and ends the busy state; a failure leaves it busy and unchanged. |
| Menus.MenusPage.HandleNavBlur | pages/admin/Menus.tsx:112-114 | Leaving the label translates only an open item with a label, no English label, and AI on. |
| Menus.MenusPage.HandleCatBlur | pages/admin/Menus.tsx:116-118 | Leaving the name translates only an open category with a name, no English name, and AI on. |
| Dashboard.MatchesProduct | pages/admin/Dashboard.tsx:55-61 | With no product chosen every document matches. A document whose category is missing does not match. A match has a category with the chosen product. |
| Dashboard.FilteredDocsMember | pages/admin/Dashboard.tsx:50-64 | A document is listed exactly when it is stored, its lower-cased title contains the lower-cased search, and it matches the product. |
| Dashboard.EmptySearchMatches | pages/admin/Dashboard.tsx:52 | The empty search matches every title. |
| Dashboard.NoFilterListsAll | pages/admin/Dashboard.tsx:50-64 | With no search and no product every document is listed, in store order. |
| Dashboard.AsWrittenClearsUnlisted | pages/admin/Dashboard.tsx:85-91 | With one listed document and one other, unlisted document selected, the sizes match, the box shows checked, and a click clears the selection. |
| Dashboard.ToggleAllAsWritten | pages/admin/Dashboard.tsx:85-91 | When the number of selected ids equals the number of listed documents, and some are listed, a click clears the selection. Otherwise the selection becomes exactly the listed ids. |
| Dashboard.ToggleAll | pages/admin/Dashboard.tsx:85-91 | When every listed document is selected, a click clears the selection. Otherwise the selection becomes exactly the listed ids. |
| Dashboard.ToggleAllTwice | pages/admin/Dashboard.tsx:85-91 | On a non-empty list, two clicks select every listed document when they were not all selected, and clear the selection when they were. |
| Dashboard.AsWrittenAgreesOnListed | pages/admin/Dashboard.tsx:85-91 | When only listed documents are selected and ids are distinct, the size test agrees with the intended test. |
| Dashboard.AllSelectedCovers | pages/admin/Dashboard.tsx:85-91 | When only listed documents are selected and all of them are, the selection is exactly the listed ids. |
| Dashboard.IdsCount | pages/admin/Dashboard.tsx:89 | Documents with distinct ids give as many ids as documents. |
| Dashboard.SubsetSameSize | pages/admin/Dashboard.tsx:86 | A subset of the same size is the whole set. |
| Dashboard.RemoveOneMore | pages/admin/Dashboard.tsx:76-78 | Deleting one more id after a group of deletes is deleting the larger group. |
| Dashboard.DeleteAll | pages/admin/Dashboard.tsx:76-78 | Deleting the selected ids one by one, in any order, leaves exactly the documents without a selected id, in their order, and leaves the products and categories unchanged. |
| Dashboard.NoneDeleted | pages/admin/Dashboard.tsx:76-78 | Deleting no ids keeps every document. |
| Dashboard.DashboardPage.constructor | pages/admin/Dashboard.tsx:46-48 | The page loads the documents, products and categories, with nothing selected, no search, no product and no pending delete. |
| Dashboard.DashboardPage.LoadData | pages/admin/Dashboard.tsx:36-44 | A reload takes the stored lists, clears the selection and reads whether AI is on. |
| Dashboard.DashboardPage.SetSearch | pages/admin/Dashboard.tsx:182 | Typing sets the search text. |
| Dashboard.DashboardPage.SelectProduct | pages/admin/Dashboard.tsx:153 | Choosing a product sets the product filter. |
| Dashboard.DashboardPage.ToggleSelectOne | pages/admin/Dashboard.tsx:93-101 | One document's selection flips, and the others keep theirs. |
| Dashboard.DashboardPage.ToggleSelectAll | pages/admin/Dashboard.tsx:85-91 | The header box applies the page's size comparison to the listed documents, as ToggleAllAsWritten states. |
| Dashboard.DashboardPage.AskDelete | pages/admin/Dashboard.tsx:266 | Deleting a document asks for confirmation first. |
| Dashboard.DashboardPage.CancelDelete | pages/admin/Dashboard.tsx:307 | Cancelling drops the pending delete. |
| Dashboard.DashboardPage.ConfirmDelete | pages/admin/Dashboard.tsx:67-73 | Without a pending id nothing changes. Otherwise the document is deleted, the page reloads without it, and the selection is cleared. |
| Dashboard.DashboardPage.AskBatchDelete | pages/admin/Dashboard.tsx:166 | A batch delete asks for confirmation first. |
| Dashboard.DashboardPage.ConfirmBatchDelete | pages/admin/Dashboard.tsx:75-82 | Exactly the selected documents are deleted, the rest keep their order, the page reloads and the selection is cleared. |
| Header.SearchResults | components/Header.tsx:65-78 | A query of at most one non-space character gives no results. Otherwise there are at most five results, and each has the lower-cased query in its lower-cased title or content. |
| Header.SearchResultsMeaning | components/Header.tsx:66-71 | The results are the first hits in store order. When fewer than five are shown, a document is shown exactly when it is a hit. |
| Header.PublicNavsMeaning | components/Header.tsx:49-55 | The items shown are ascending by order and are exactly those of the current product; with no product there are none. |
| Header.SwitchTarget | components/Header.tsx:108-148 | A product without items leads home. |
| Header.SwitchChoosesFirstNav | components/Header.tsx:117-147 | The first item is chosen exactly when the product has items, and it has the least order among them. An external first item leads home, and an internal one leads into the site. |
| Header.SwitchOpensPublishedDoc | components/Header.tsx:124-137 | When the switch opens a document, that document is published and belongs to a category of least order under the chosen internal item. |
| Header.ProductName | components/Header.tsx:158-161 | No product shows no name. In English a non-empty English name is shown; otherwise the Chinese name is shown. |
| Header.NavLabel | components/Header.tsx:164-166 | In English a non-empty English label is shown; otherwise the Chinese label is shown. |
| Header.HeaderView.constructor | components/Header.tsx:22-30 | The header starts with no items, the product menu closed, and no search. |
| Header.HeaderView.SyncNavs | components/Header.tsx:49-62 | The items become those of the current product. Outside the admin area, when a product with items is current and no item is chosen, the first item is chosen; otherwise the choice is kept. |
| Header.HeaderView.SetSearchQuery | components/Header.tsx:65-78 | Typing sets the query and its results, and shows the results exactly when the search runs. |
| Header.HeaderView.PickResult | components/Header.tsx:290-292 | Picking a result goes to the editor of its document, closes the list, clears the query and, as the search effect then runs on the empty query, empties the results. |
| Header.HeaderView.FocusSearch | components/Header.tsx:280 | Focusing the search box shows the list when there are results and otherwise leaves it as it was. |
| Header.HeaderView.HandleProductSwitch | components/Header.tsx:108-148 | The route is that of the switch target. A known product becomes current. A chosen first item becomes the current item; a known product without items leaves no item chosen. The product menu closes. |
| Header.HeaderView.SelectNav | components/Header.tsx:257-261 | Choosing an item makes it current, and opens an internal path in the page or an external one in a new tab. |
| Sidebar.ShownMember | components/Sidebar.tsx:29-33 | A category is shown exactly when a product is current, the category belongs to it, and, when an item is chosen, to that item. |
| Sidebar.ChildrenMeaning | components/Sidebar.tsx:57 | The children of a node are ascending by order and are exactly the categories with that parent. |
| Sidebar.LeafDocsMeaning | components/Sidebar.tsx:61 | A leaf lists exactly the published documents of its category. |
| Sidebar.RenderTree | components/Sidebar.tsx:56-107 | A category without children shows its published documents, or the empty note when there are none. Otherwise each child is shown in order, with its localized name, open exactly when expanded, and with content under it only when open. |
| Sidebar.ExpandedShowsLevel | components/Sidebar.tsx:99-103 | A collapsed category shows nothing under it. An expanded one shows the tree of its own children or documents. |
| Sidebar.NoCategoriesNote | components/Sidebar.tsx:134 | With an item chosen the note says that no categories were found; otherwise it asks to pick a tab. |
| Sidebar.SidebarView.constructor | components/Sidebar.tsx:15-17 | The sidebar starts with no categories, no documents and nothing expanded. |
| Sidebar.SidebarView.Sync | components/Sidebar.tsx:21-40 | The shown categories are recomputed, the documents reloaded, and every shown category starts expanded. |
| Sidebar.SidebarView.ToggleExpand | components/Sidebar.tsx:42-50 | One category flips between open and closed, and the others keep their state. |
| Sidebar.SidebarView.View | components/Sidebar.tsx:132-135 | With no category shown the note appears; otherwise the tree from the root. |
| ProductContext.Refreshed | contexts/ProductContext.tsx:21-30 | Without products the current product is kept. Otherwise it is the stored product when that exists, and else the first product. |
| ProductContext.ProductContextState.constructor | contexts/ProductContext.tsx:16-34 | The context loads the sorted products, picks the current one by the refresh rule, and has no item chosen. |
| ProductContext.ProductContextState.RefreshProducts | contexts/ProductContext.tsx:21-30 | The products are reloaded in ascending order, and the current product follows the refresh rule. |
| ProductContext.ProductContextState.SetProductId | contexts/ProductContext.tsx:36-44 | An unknown id changes nothing. For a known id, the first product with that id becomes current, the id is stored, and the chosen item is cleared. |
| ProductContext.ProductContextState.SetTopNavId | contexts/ProductContext.tsx:46-48 | The item becomes the chosen one. |
| Login.RedirectFor | pages/Login.tsx:71-86 | With a success callback only the callback runs. Otherwise a non-empty return path wins; failing that a guest goes home and any other role goes to the admin area. |
| Login.PasswordDecision | pages/Login.tsx:47-61 | Sign-in is refused exactly when no user has that user name and password. Otherwise the first such user signs in, unless that user awaits approval. |
| Login.ScanDecision | pages/Login.tsx:141-156 | A scan is refused exactly when no user has a WeChat id. Otherwise the first such user signs in, unless that user awaits approval. |
| Login.NewUser | pages/Login.tsx:96-103 | A new account has a time-stamped id, the typed user name and password, the Guest role and the Pending status. It shows the display name, or the user name when that is empty, and has no WeChat id. |
| Login.NewUserAwaitsApproval | pages/Login.tsx:47-105 | Right after registering with credentials no other user has, signing in with them is answered with "awaiting approval". |
| Login.OAuthUrlFields | pages/Login.tsx:120 | The authorisation address holds the app id and the encoded callback at fixed places between the fixed parts, so both can be read back. |
| Login.QrUrl | pages/Login.tsx:116-125 | No configuration or an empty app id gives no QR address. Otherwise it is the QR service address followed by the encoded authorisation address. |
| Login.LoginPage.constructor | pages/Login.tsx:14-30 | The page opens on sign-in with the password method, empty fields, no error, a waiting scan, no session and no pending timers. |
| Login.LoginPage.LoadConfig | pages/Login.tsx:36-45 | The scan method is the default exactly when WeChat sign-in is enabled and the page is not embedded. |
| Login.LoginPage.ResetState | pages/Login.tsx:161-166 | The error, the scan status and both credentials are cleared. |
| Login.LoginPage.ChooseMethod | pages/Login.tsx:201-212 | Switching the tab chooses the method and clears the form. |
| Login.LoginPage.ShowRegister | pages/Login.tsx:270 | The registration view opens with a cleared form. |
| Login.LoginPage.BackToSignIn | pages/Login.tsx:309 | The sign-in view opens. |
| Login.LoginPage.SkipBind | pages/Login.tsx:349 | Skipping the binding shows the pending-approval view. |
| Login.LoginPage.CompleteLogin | pages/Login.tsx:63-87 | The session records the user's role and display name, and the redirect follows the redirect rule. |
| Login.LoginPage.HandleLogin | pages/Login.tsx:47-61 | A refused sign-in shows the error; an account awaiting approval shows the pending error. Otherwise the first matching user is signed in. |
| Login.LoginPage.HandleRegister | pages/Login.tsx:89-114 | A missing user name or password shows the error and saves nothing. Otherwise the new account is saved and remembered, and the page moves to binding when WeChat is enabled, else to pending approval. No other collection changes. |
| Login.LoginPage.SimulateScan | pages/Login.tsx:127-130 | A scan starts only from the waiting state: it marks the code scanned and schedules the scan result. |
| Login.LoginPage.Fire | pages/Login.tsx:131-158 | Running a scheduled step in any order has the source's effect. A bind scan saves the account with a WeChat id and schedules the pending view. A sign-in scan schedules the login of the first bound user, or shows an error and schedules the return to waiting. The later steps show the pending view, return to waiting, or complete the login. |

## Left out

- Local storage as such: the keys, the JSON encoding of each collection and the seed data of services/storage.ts:4-110 are not modelled. The store is a class whose fields are the decoded collections. The user-status migration is modelled; the seeding is not.
- Types.AIConfig: `priority` is a list of the two known provider ids only. A stored list holding another id makes the router throw a TypeError when it reads that provider's switch (services/geminiService.ts:88-89). The source's own type rules such a list out, and the model does not represent it.
- `getWeChatConfig`/`saveWeChatConfig` (services/storage.ts:223-230): the page receives the configuration as a value.
- The HTTP calls to Gemini and Bailian are oracles: the transport of each provider is a function parameter that returns a reply or an error. `fetch`, headers, timeouts and the 20-page limit of the PDF reader are not modelled.
- `JSON.parse`, `yaml.load`, the pdf.js text extraction and `encodeURIComponent` are function parameters. The model states what is done with their results, not what they compute.
- `Date.now()` and `Math.random()` are parameters (`now`, `freshId`, `suffix`). One `now` stands for every clock reading within one batch upload or PDF import, although the source reads the clock once per document.
- Timers: the sign-in page keeps its `setTimeout` steps as a list of pending steps that may run in any order. Elsewhere an awaited call is one atomic step, so concurrent clicks during an `await` are not modelled.
- Navigation made by handlers and effects, `window.open`, the `auth-change` event and the writes of the session keys are recorded as a `redirect` or `route` result and a `session` field. They are not performed. Plain links of the layout (the back links, the admin menu, the dashboard's new and edit links, the editor's back button) are markup and are not modelled.
- Busy flags (`isUploading`, and `isSaving` and `isTranslatingSlug` in the editor), the intermediate "analyzing" step of the PDF import, alert texts, modal visibility and `console` output are left out. The translation flag of the menus page is kept.
- Message keys such as "login.error" stand for the translated texts; `t()` and the language context are not modelled.
- `toLowerCase` is modelled for ASCII letters only. `\s`, `\w` and the CJK range follow the JavaScript definitions, which only name characters of the Basic Multilingual Plane.
- Strings are sequences of Unicode scalar values, not of UTF-16 code units. A character outside the Basic Multilingual Plane (an emoji, say) has length 1 here and 2 in JavaScript, and a lone surrogate cannot be written. Lengths, indices and cuts therefore differ from the source on such text.
- AIService.Head: cuts after 300000 characters, where `slice(0, 300000)` cuts after 300000 UTF-16 code units. On text outside the Basic Multilingual Plane the source keeps less text, and it may split a surrogate pair, which this model cannot express.
- AIService.TruncateShape: the same difference for the 200000 cut of the site context.
- Inputs that only copy a value into a form field (labels, names, order, path, and the editor's version box, status select and content box) are not modelled one by one.
- Editor.EditorPage.HandleSave: `timeMarker` is a parameter standing for the date-fns rendering of the save time as `yyyyMMddHHmm` in the browser's time zone. The calendar and time-zone conversion are not modelled, so the model does not tie `timeMarker` to `now`.
- The header's logout, the language toggle, the sidebar toggle and the click-outside handlers are left out, and so is the sidebar's heading text.
- The category saved by the PDF import has an empty English name; the source leaves that field undefined.
- The batch delete of the dashboard removes the selected ids one by one in the iteration order of a JavaScript `Set`. The model states the result, which does not depend on that order.
- Sidebar.RenderTree: the tree is rendered to a depth bound `fuel`. The source recurses without a bound, so a category cycle, which the source would loop on, is cut off here.
- PdfImport.Analysis: states only that a failed extraction fails the analysis. A successful extraction gives what AIService.AnalyzePdfContent gives, and that function's own lemmas state what that is.
- PdfImport.PdfImportForm.HandleImport: states the exact lists saved, but no lemma counts the documents per group.
- Ordering.SortBy: stability is stated only as "an already ascending list comes back unchanged" and "the largest element is inserted last", not as a full stable-permutation theorem.
- AIService.GenerateContentSuggestion: has no lemma of its own. What it returns is the fallback router's answer, whose contract is AIService.FallbackContract.

## Findings

| source | as written | input that shows it | evidently intended | confidence | as-written member | corrected member |
|---|---|---|---|---|---|---|
| components/BatchUploadModal.tsx:99-113 | Each file's slug is checked for uniqueness only against the documents read before the loop, so documents saved earlier in the same batch are not seen. | Two files with the same first heading (or the same file twice) in one upload | Every slug of the batch is unused, also among the documents of the same batch | not executed | BatchUpload.AsWrittenDuplicates | BatchUpload.ImportSlugsUnique |
| pages/admin/Dashboard.tsx:85-91 | "Select all" is judged by comparing the number of selected ids with the number of listed documents. | One document listed, and a different document selected before the search narrowed the list: the box shows checked and a click clears the selection | The box is checked, and a click clears, only when every listed document is selected; otherwise a click selects the listed documents | not executed | Dashboard.AsWrittenClearsUnlisted | Dashboard.ToggleAll |

The pages follow the code as written: `BatchUpload.UploadForm.HandleSubmit` saves the documents of `BatchUpload.ImportAsWritten`, and `Dashboard.DashboardPage.ToggleSelectAll` applies `Dashboard.ToggleAllAsWritten`. The corrected definitions, `BatchUpload.Import` and `Dashboard.ToggleAll`, stand beside them with the intended properties proved.
