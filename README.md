# Nexus-Knowledge backend: a Dafny model of its RAG core

This project models the three pieces of real logic in the Python backend of
Nexus-Knowledge, a retrieval-augmented question-answering service:

* **Streaming and message bookkeeping** (`Backend/main.py`). Module `ChatServer`, file `chat_server.dfy`.
  - The websocket loop turns the agent's event stream into `status`, `chunk` and `end` frames.
  - It accumulates the assistant's response as it goes.
  - It classifies a failure as rate-limit or generic.
  - It saves the user and assistant messages and names a conversation after its first message.
  - The upload endpoint accepts only `.pdf` names.
* **The agent graph** (`Backend/app/agents/graph.py`). Module `AgentGraph`, file `agent_graph.dfy`.
  - Retrieval, then an order-preserving grading filter, then generation.
  - The graph is wired as a closed state machine. Its only conditional edge always answers `"generate"`.
* **Ingestion** (`Backend/app/core/rag_engine.py`). Module `RagEngine`, file `rag_engine.dfy`.
  - Blank pages are dropped. OCR is the fallback when no page has text.
  - The OCR page loop is modelled, along with the guards and messages of `process_pdf`.
  - The Tesseract and Poppler install searches pick the first existing path.
  - The retriever settings are fixed: MMR with `k = 1` out of `fetch_k = 5`.

Shared helpers:
- `text.dfy` (module `Text`) holds the Python string operations the code uses. These are `in`, `endswith`, `lower`, `strip`, `join` and `str(int)`.
- `seqs.dfy` (module `Seqs`) holds an order-preserving `Filter` and a subsequence relation.
- `wrappers.dfy` (module `Wrappers`) holds `Option` and `Result`.

External services are parameters of the model:
- The Gemini model is a function from prompt to reply-or-failure.
- The Chroma retriever is a function from search settings and question to documents-or-failure.
- `PyPDFLoader`'s output, `convert_from_path`, `pytesseract.image_to_string`, `os.path.exists`, the text splitter and `Chroma.from_documents` are also parameters.
- The agent run seen by the websocket is its list of events plus an optional exception text.
- The database is a value: `Option<Conversation>`, where `None` means the row does not exist.

Nothing about what these services compute is assumed, with one exception. `AtMostOneDocument` states the `k = 1` bound as a hypothesis.

Three behaviours of the code worth stating plainly, since the model follows them:
- The code keeps a document whose grading call raises; it does not drop it.
- The code has no fallback generation path: grading always leads to `generate`.
- The code sends a failed run's error text as a `chunk` frame, not as an `error` frame with a reason code.

## Model

| member | source | states |
|---|---|---|
| `ChatServer.UploadPdf` | Backend/main.py:43-67 | a file is processed iff its name ends with ".pdf" (case-sensitive); a refused upload leaves the data folder unchanged and answers "Only PDF files are supported"; an accepted one is written under the data folder, then reports `process_pdf`'s result or its error |
| `ChatServer.UploadGateExamples` | Backend/main.py:46-47 | "report.pdf" is accepted; "report.PDF" and "pdf" are refused |
| `ChatServer.DeriveTitle` | Backend/main.py:206 | the title is the content when it has at most 50 characters; otherwise its first 50 characters followed by "...", 53 characters in all; never longer than 53 |
| `ChatServer.AddMessage` | Backend/main.py:188-210 | a missing conversation gives "Conversation not found"; otherwise the message is appended, and the title changes only for a "user" message on a conversation with no messages, to the derived title |
| `ChatServer.TitleSetOnce` | Backend/main.py:204-206 | over any sequence of posted messages, a conversation that has messages keeps its title, and an empty one ends up named after its first message if that is a user message |
| `ChatServer.SocketSaveMatchesEndpoint` | Backend/main.py:233-241 | the socket saves a query only when the conversation exists, exactly as posting a "user" message would, including the title rule |
| `ChatServer.FailureText` | Backend/main.py:276-287 | the error chunk is the rate-limit text iff the error contains "429" or "RESOURCE_EXHAUSTED"; otherwise it is "Error processing request: " followed by the error |
| `ChatServer.EventFramesShape` | Backend/main.py:250-260 | the frames for the events hold one `status` per `on_chain_start` event, one `chunk` per `on_chat_model_stream` event with non-empty content, and no `end`; there are exactly that many frames, so other events send nothing; every `chunk` is non-empty, and their contents concatenate to every `on_chat_model_stream` content in order |
| `ChatServer.StreamQuery` | Backend/main.py:247-288 | the frames follow event order and end with exactly one `end`, as the last frame; after a completed run the response equals the concatenated chunk contents sent; after an exception, the response followed by the error text equals them |
| `ChatServer.ClosingShape` | Backend/main.py:262-288 | a query closes with one `end`, preceded by one error chunk only when the run raised |
| `ChatServer.ServeQuery` | Backend/main.py:228-288 | one pass of the loop sends the frames `StreamQuery` specifies; the store gains the user message if the conversation exists, then the assistant's streamed reply only when the run completed with text |
| `ChatServer.SaveUserMessage` | Backend/main.py:231-245 | the socket's user save stores nothing when the conversation row is missing; otherwise it appends the "user" message and names a conversation without messages after the query, as `RecordUserMessage` states |
| `ChatServer.SaveAssistantMessage` | Backend/main.py:264-274 | the assistant save appends one "assistant" message holding the response, and stores nothing when the row is missing, as `RecordAssistantMessage` states |
| `ChatServer.ChatSocket` | Backend/main.py:221-300 | a session sends, query after query, the frames `StreamQuery` specifies, and leaves the database as the per-query rule says |
| `ChatServer.ChatSocketLegacy` | Backend/main.py:302-349 | the legacy endpoint sends the same frames and saves nothing |
| `ChatServer.EachQueryEnds` | Backend/main.py:227-288 | the frames of every prefix of the queries are a prefix of the session's frames and end with `end`, so no query's frames run into the next |
| `ChatServer.OneEndPerQuery` | Backend/main.py:262-288 | a session sends exactly one `end` per query |
| `ChatServer.SessionTitle` | Backend/main.py:233-241 | with no conversation row nothing is stored; a conversation without messages is named after the first query; one with messages keeps its title |
| `ChatServer.QueryMessages` | Backend/main.py:257-274 | per query the store gains the user message, then, only for a completed run with non-empty response, one assistant message holding exactly the streamed text |
| `AgentGraph.RetrieveNode` | Backend/app/agents/graph.py:27-29 | `documents` becomes the retrieved page texts in retriever order and `run_web_search` false; a retriever exception propagates |
| `AgentGraph.GradeDocumentsNode` | Backend/app/agents/graph.py:31-49 | only `documents` is written, with the graded filter of the documents; the model is asked once per document, in order, with the fixed prompt |
| `AgentGraph.GradedIsOrderedSubset` | Backend/app/agents/graph.py:32-44 | the kept documents are a subsequence of the retrieved ones, in the same order, and no more numerous |
| `AgentGraph.GradedKeepsIff` | Backend/app/agents/graph.py:39-44 | a document is kept iff it was retrieved and its grading reply, lower-cased, contains "yes" or the grading call failed |
| `AgentGraph.GradingOutageKeepsAll` | Backend/app/agents/graph.py:42-44 | when every grading call fails, every document is kept |
| `AgentGraph.RelevantExamples` | Backend/app/agents/graph.py:40 | "Yes" and "YES." are relevant, "No" is not, a failed call keeps the document |
| `AgentGraph.GenerativeNode` | Backend/app/agents/graph.py:52-62 | a state with a non-empty answer is returned unchanged; otherwise only `answer` is written, with the model's reply to the prompt, or "Error: " and the failure text |
| `AgentGraph.GeneratePromptEmbeds` | Backend/app/agents/graph.py:56-57 | the generation prompt contains the question and every graded document |
| `AgentGraph.DecideToGenerate` | Backend/app/agents/graph.py:64-82 | the edge label is always a key of the path map, and it leads to "generate" |
| `AgentGraph.FixedChain` | Backend/app/agents/graph.py:64-84 | every run visits retrieve, grade, generate, then END, even when nothing is kept; it fails only when retrieval raises; the final state holds the graded texts, the generated answer and `run_web_search` false |
| `AgentGraph.Run` | Backend/app/agents/graph.py:67-84 | running the compiled graph from a node follows the edges to END, visiting exactly the written-out chain from that node (retrieve, grade, generate); no node changes the question; a run from any node but END ends with documents and an answer |
| `AgentGraph.Invoke` | Backend/app/agents/graph.py:67-86 | `agent_graph` started on `{"question": q}` visits exactly retrieve, grade, generate when it succeeds, and ends with question q, documents and an answer |
| `AgentGraph.AtMostOneDocument` | Backend/app/core/rag_engine.py:129-131 | if the retriever honours `k`, a run grades and answers from at most one document |
| `RagEngine.FirstExistingIsFirst` | Backend/app/core/rag_engine.py:35-38 | the chosen path is the earliest candidate that exists, and none is chosen only when no candidate exists |
| `RagEngine.SearchPaths` | Backend/app/core/rag_engine.py:57-60 | the search loop with `break` returns exactly the first existing candidate |
| `RagEngine.NewEngine` | Backend/app/core/rag_engine.py:23-38 | the engine persists to "./chroma_db"; it sets a Tesseract command only when the OCR libraries are available, and then to the first existing install path |
| `RagEngine.Recognised` | Backend/app/core/rag_engine.py:67-68 | the OCR calls run image by image, and a success holds one text per image |
| `RagEngine.RecognisedTexts` | Backend/app/core/rag_engine.py:67-68 | on success text i is what Tesseract returned for image i; a failure is the failure of some image's call |
| `RagEngine.OcrDocuments` | Backend/app/core/rag_engine.py:67-74 | the OCR documents carry non-blank text, `extraction` "ocr", the file as source, and a page number between 1 and the image count, equal to the image's index plus one; pages strictly increase |
| `RagEngine.OcrDocumentsCoverTextPages` | Backend/app/core/rag_engine.py:67-74 | page p has a document iff the text of image p is not blank |
| `RagEngine.ExtractTextWithOcr` | Backend/app/core/rag_engine.py:40-80 | without the OCR libraries it raises at once; otherwise the PDF is rasterised with the first Poppler path found, each image is recognised in order, and any failure becomes "OCR extraction failed: ..." |
| `RagEngine.TextDocumentsFilter` | Backend/app/core/rag_engine.py:88 | the blank-page filter keeps exactly the pages whose text is not all white space, in order |
| `RagEngine.ExtractedText` | Backend/app/core/rag_engine.py:88-99 | the documents handed to the splitter are non-empty and each has text |
| `RagEngine.ProcessPdf` | Backend/app/core/rag_engine.py:82-121 | `process_pdf` returns or raises exactly what the guard sequence specifies: loader error, OCR fallback, "no text", "no chunks", store error, or success |
| `RagEngine.OcrOnlyWithoutText` | Backend/app/core/rag_engine.py:91-96 | when some loaded page has text, OCR is not consulted: the outcome is the same for every OCR toolkit |
| `RagEngine.OcrFailureReported` | Backend/app/core/rag_engine.py:91-96 | when no page has text and OCR fails, `process_pdf` raises "PDF has no extractable text and OCR failed: " followed by the OCR error |
| `RagEngine.IngestSucceedsIff` | Backend/app/core/rag_engine.py:98-121 | `process_pdf` succeeds iff text was found, the splitter produced chunks and the store accepted them; the message "Successfully processed N text chunks" then reports N = the chunk count |
| `RagEngine.GetRetriever` | Backend/app/core/rag_engine.py:123-131 | the retriever searches the engine's store by MMR, keeping 1 result out of 5 candidates |
| `Text.HasTextIff` | Backend/app/core/rag_engine.py:70 | `s.strip()` is truthy iff `s` has a character that is not white space |
| `Text.ContainsIffOccurs` | Backend/main.py:278 | the substring test `sub in s` holds iff `sub` occurs at some position of `s` |
| `Text.JoinContainsPart` | Backend/app/agents/graph.py:56 | every part appears in `sep.join(parts)` |
| `Text.ParseNatToString` | Backend/app/core/rag_engine.py:121 | the decimal rendering of a count reads back as the same count |

## Left out

- FastAPI routing, CORS, the websocket accept and close, and the list and delete file endpoints are transport and file-system I/O.
- The conversation CRUD endpoints are left out. Only the title rule of `add_message` is modelled.
- The SQLAlchemy models and sessions are abstracted. A socket save that fails on a database error is not modelled: the socket only prints it. The one case kept is an assistant message for a missing conversation, which the foreign key rejects, so nothing is stored.
- `ChatServer.AddMessage`: does not model a commit or refresh that raises, where the endpoint rolls back and answers `{"status": "error", "error": ...}`. Only a missing conversation is an error in the model.
- Sessions run one at a time and each send is assumed to succeed. A client disconnect is the end of the query list.
- The agent's event stream is an input. Which events LangGraph and LangChain emit for this graph is not modelled, for example whether the grading model calls also stream.
- `AgentGraph.GradedKeepsIff`: the Gemini model is a function of the prompt, so two calls with the same prompt get the same reply. A document retrieved twice therefore gets one verdict, and membership in the kept list decides relevance. In Python each call is independent and could answer differently.
- Chroma indexing, the HuggingFace embeddings and the MMR search are library internals. The retriever's `k = 1` bound is a hypothesis of `AtMostOneDocument`.
- The text splitter, `PyPDFLoader`, `convert_from_path` and `pytesseract` are parameters. Chunk size, overlap and separators give no guarantee in the model.
- Of a document's metadata, only `page`, `source` and `extraction` are modelled.
- `Text.Lower`: does not model full Unicode lower-casing, only the ASCII letters. The `"yes"` test is unaffected, since no other character lower-cases to `y`, `e` or `s`.
- `RagEngine.JoinPath`: models `os.path.join` with Windows separators only, where the hard-coded install paths live. A bare drive such as "C:" is joined without a separator, as Windows joining does. A UNC share used as `LOCALAPPDATA` is not modelled.
- `ChatServer.DataPath`: joins with "/", and does not model absolute or `..` file names.
- A failure to read or write the uploaded file is not modelled.
- Logging (`print`), the Gemini model settings and the `.env` loading are configuration and output only.
- These features are not in the code, so they are not modelled: cancelling an in-flight run, cancel-on-new-query, a fallback generation path, retries, coarse error reason codes, and overlap-aware chunking.
- `Backend/ingest_docs.py` is a directory walk and `Backend/test_rag.py` is a manual retry script. Neither is part of this model.
