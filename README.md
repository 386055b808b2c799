# bgcminer-api controller, modelled in Dafny

bgcminer-api classifies a biosynthetic gene cluster from an annotated GenBank
record. Its controller does two things, and this project models both:

- **Reading the record** (`ReadGB`). The reader walks the features of one
  parsed record and keeps the coding sequences (feature key `CDS`). For each
  one it reads six qualifiers (`translation`, `locus_tag`, `protein_id`,
  `product`, `description`, `gene`), taking the first value of each. It reads
  the strand and the `[start, stop]` location and slices the record's DNA.
  It appends a `Protein` record to `cluster`. It then folds the embedding of
  the protein's translation into `vector`. The model takes each embedding to
  be one flat array (see Left out). The first embedding then replaces the
  empty vector, and each later one is added elementwise. `get_data` returns
  the two fields.
- **Classifier dispatch** (`Analysis`). Five analyses (random forest,
  AdaBoost, XGBoost, k-nearest neighbours, neural network) each fetch one
  pre-trained backend. Each calls `predict`, then `predict_proba`, on the same
  stored vector and returns the pair. If any step raises, the analysis returns
  the caught exception as its result.

Files:

- `results.dfy`: module `Results`, with `Option`, `Result` (usable with `:-`)
  and `Outcome`.
- `read_gb.dfy`: module `ReadGenBank`, covering the reader.
  - Data model: `Feature`, `Protein`, the carried qualifier `Locals`, and
    `LoadError`.
  - `ScanFeatures`: the loop as a fold over the features. It is the
    specification of the class's loop.
  - The lemmas about that fold.
  - Class `ReadGB`: fields `cluster` and `vector`, the loop `PostInit`, the
    construction `Read`, and `GetData`.
- `analysis.dfy`: module `Dispatch`, covering the backends, the try/except as
  `Classify`, and class `Analysis` with its five analyses.
- `as_written.dfy`: module `AsWritten`, with the two loop statements that do
  not do what they evidently mean (see Findings).

How the model treats the source:

- **Inputs.** The record arrives parsed: a sequence of features (key,
  qualifier map from key to list of values, optional strand, start, stop) and
  the parent sequence. The embedding model is a parameter
  `embed: string -> seq<real>`. It returns vectors of one fixed length `dim`
  (`FixedWidth`). Vectors hold exact reals.
- **Qualifier locals.** The six locals are never reset between iterations,
  so they are carried state (`Locals`, with `None` for a local not yet
  assigned). Three things raise, and each becomes a `LoadError`:
  - A CDS without a qualifier reuses the previous CDS's value. On the first
    CDS, a missing qualifier raises `UnboundLocal`. The error names the first
    unassigned local in the argument order of the `Protein(...)` call.
  - `qualifiers[key][0]` on an empty list raises `EmptyQualifier`.
  - `int(None)` for a missing strand raises `StrandNotInt`.

  The exception ends construction of the reader, so `ReadGB.Read` returns
  `Err`.
- **Slicing.** `record.seq[start:stop]` follows Python slice semantics for
  non-negative bounds: both bounds are clamped, and a reversed range gives an
  empty string.
- **Analysis results.** An analysis result is `Predicted(class, probabilities)`
  or `Raised(exception)`. A backend is opaque: `predict` and `predict_proba`
  are functions that may raise. The loader is described by what loading each
  artifact gives. Its `get_nn` loads the artifact and returns None
  (api/ml.py:43-44), so the neural-network analysis always returns an
  exception.

Three behaviours of the code that a reader may not expect:

- A CDS without a `translation` is not skipped for the vector. It reuses the
  previous CDS's translation, or raises on the first CDS.
- No scaling or dimensionality reduction is applied before classification
  (see `Analysis.__post_init__` under Left out).
- An analysis returns the caught exception as a value, not as a distinct
  failure signal. Here it is the `Raised` constructor, so a failure is never
  mistaken for a prediction.

The following are modelled by their evident meaning. Two are Findings
below. The third is the field default `vector = field(default_factory=np.array())`
(api/controller.py:22). This calls `np.array()` with no argument when the
class is defined, which raises. It is modelled as the evident default, an
empty vector.

## Model

| member | source | states |
|---|---|---|
| `ReadGenBank.FirstValue` | api/controller.py:44-45 | A present key with values gives its first value. An absent key leaves the local as it was. A present key with an empty list raises. |
| `ReadGenBank.ReadQualifiers` | api/controller.py:44-55 | Succeeds exactly when every present key of the six has a value. Each local is then the first value of its key when present, and its previous value otherwise. A failure raises `EmptyQualifier` for the first key, in reading order, that is present with an empty list. |
| `ReadGenBank.IntStrand` | api/controller.py:57 | The strand converts exactly when the parser gave one, and keeps its value. |
| `ReadGenBank.Bound` | api/controller.py:61 | Reading an assigned local gives its value. An unassigned one raises `UnboundLocal` with that local's name. |
| `ReadGenBank.Slice` | api/controller.py:58-59 | The slice is never longer than the sequence. It is `s[start..stop]`, of length `stop - start`, when `start <= stop` and `stop` is within the sequence. It is the rest of the sequence from `start` when `start <= stop` and `stop` is at or past the end. It is empty when the range is reversed or starts past the end. |
| `ReadGenBank.MakeProtein` | api/controller.py:61 | Builds a protein exactly when all six locals are assigned. Each qualifier field equals its local, and the DNA, location `[start, stop]` and strand are the given ones. Otherwise it raises `UnboundLocal` naming the first unassigned local in the call's argument order (`gene`, `prot_id`, `locus`, `product`, `translation`, `description`). |
| `ReadGenBank.ReadCds` | api/controller.py:42-61 | One CDS succeeds exactly when its qualifier lists are non-empty, it has a strand, and every local is either read now or carried. The protein's qualifiers equal the new locals: own first value when present, carried value otherwise. The protein describes the feature's location, strand and DNA slice. A failure comes from the first statement that raises: an empty qualifier list (the first in reading order), then a missing strand, then an unassigned local (the first in argument order). |
| `ReadGenBank.Add` | api/controller.py:70 | `np.add` of two equal-length vectors is their elementwise sum. |
| `ReadGenBank.Accumulate` | api/controller.py:67-70 | An empty accumulator is replaced by the new embedding. A non-empty one has the embedding added elementwise. The length is the embedding's. |
| `ReadGenBank.Step` | api/controller.py:42-70 | A non-CDS feature leaves cluster, vector and locals unchanged. After any step, the vector is empty exactly while the cluster is empty, and has the embedding length afterwards. |
| `ReadGenBank.ScanFeatures` | api/controller.py:39-70 | The loop over the features, in file order, stopping at the first exception. Its result keeps the vector-shape invariant. |
| `ReadGenBank.CdsMembers` | api/controller.py:39-42 | A feature is kept exactly when it is in the record and is a CDS. Nothing is kept exactly when the record has no CDS. |
| `ReadGenBank.CdsAppend` | api/controller.py:39-42 | The filter distributes over concatenation, so the kept features stay in file order. |
| `ReadGenBank.NonCdsIgnored` | api/controller.py:39-70 | Features other than CDS change nothing. The loop over a record gives the same outcome as the loop over its CDS features alone. |
| `ReadGenBank.ClusterFollowsCds` | api/controller.py:39-63 | On success the cluster has exactly one protein per CDS feature, in file order. Each protein has the feature's `[start, stop]`, integer strand and `dna == Slice(parent, start, stop)`. Each qualifier is the first value of the feature's own qualifier when present, and otherwise the previous protein's value. The locals end holding the last protein's qualifiers. |
| `ReadGenBank.ScanSucceedsIff` | api/controller.py:27-61 | The loop succeeds if and only if three things hold: every CDS has values for the qualifier keys it carries, every CDS has a strand, and the first CDS carries all six keys. |
| `ReadGenBank.VectorIsSum` | api/controller.py:65-70 | On success the vector is the elementwise sum, not the mean, of the embeddings of every protein's translation. Its length is 0 with no CDS and the embedding length otherwise. |
| `ReadGenBank.NoCdsNoVector` | api/controller.py:21-22 | A record without CDS features leaves the cluster empty, the vector empty and the locals unassigned. |
| `ReadGenBank.OneCdsVector` | api/controller.py:65-68 | With exactly one CDS, the cluster has one protein and the vector is that protein's embedding itself. |
| `ReadGenBank.FirstCdsUnbound` | api/controller.py:44-61 | Take a first CDS with non-empty qualifier lists and a strand that lacks one of the six keys. The record then raises `UnboundLocal`, naming the first local that CDS leaves unassigned in argument order. |
| `ReadGenBank.ErrorPersists` | api/controller.py:39-70 | Once an iteration raises, the later features do not matter: the record raises that same error. |
| `ReadGenBank.ReadGB.Init` | api/controller.py:20-22 | A new reader has an empty cluster and an empty vector. |
| `ReadGenBank.ReadGB.PostInit` | api/controller.py:25-70 | The loop appends to `cluster` and accumulates into `vector`. It passes exactly when `ScanFeatures` succeeds, and then the fields equal the fold's cluster and vector. Otherwise it reports the fold's error. |
| `ReadGenBank.ReadGB.Read` | api/controller.py:17-70 | Constructing a reader either gives a fresh object whose fields are the fold's cluster and vector, or gives the error the loop raised. |
| `ReadGenBank.ReadGB.GetData` | api/controller.py:73-74 | Returns exactly the cluster and the vector, and changes nothing. |
| `Dispatch.Returned` | api/ml.py:31-41 | A getter returns the classifier it loaded, or raises the loading error. |
| `Dispatch.LoadModels.GetNn` | api/ml.py:43-44 | The neural-network getter raises the loading error, or else returns None. |
| `Dispatch.Classify` | api/controller.py:93-99 | The result is a prediction exactly when the backend is fetched, is not None, and both `predict` and `predict_proba` succeed. The prediction is then the pair of `predict(v)` and `predict_proba(v)` on the same `v`. Otherwise it is the exception of the first failing step: the fetch, the AttributeError of None, `predict`, or `predict_proba`. |
| `Dispatch.Analysis.constructor` | api/controller.py:77-81 | The analysis stores the vector it is given and the shared loader. |
| `Dispatch.Analysis.RfAnalysis` | api/controller.py:91-99 | Either the random-forest artifact's `(predict(v), predict_proba(v))` on the stored vector, or the exception that loading, `predict` or `predict_proba` raised, in that order. The stored vector is unchanged. |
| `Dispatch.Analysis.AdaAnalysis` | api/controller.py:101-109 | The same as `RfAnalysis`, for the AdaBoost artifact. |
| `Dispatch.Analysis.XgAnalysis` | api/controller.py:112-120 | The same as `RfAnalysis`, for the XGBoost artifact. |
| `Dispatch.Analysis.KnnAnalysis` | api/controller.py:122-129 | The same as `RfAnalysis`, for the k-nearest-neighbours artifact. |
| `Dispatch.Analysis.NnAnalysis` | api/controller.py:131-138 | Always returns an exception: the loading error, or the AttributeError of calling `predict` on None. |
| `AsWritten.ScanRecordAsWritten` | api/controller.py:35-42 | As written, iterating the record gives its letters. The loop succeeds, with nothing read, only on an empty sequence. Otherwise it raises the missing `type` attribute of a one-letter string. |
| `AsWritten.StepAsWritten` | api/controller.py:42-59 | As written, with a feature as loop variable, every CDS raises. A CDS that gets past the qualifier and strand lines raises the missing `seq` attribute of a feature. |
| `AsWritten.RecordIterationLosesFeatures` | api/controller.py:35-39 | Take a record with sequence `ATGAAATAA` and one complete CDS. As written it raises. Iterating its features succeeds with a one-protein cluster. |
| `AsWritten.FeatureSeqRaises` | api/controller.py:59 | For the same CDS, the as-written iteration raises at `record.seq`. Slicing the record's sequence gives a protein whose DNA is the whole coding region. |

## Left out

- GenBank text parsing (`SeqIO.read`) and the file handle: the model starts
  from the parsed features and the parent sequence.
- Feature positions: positions are taken as exact non-negative integers.
  Biopython's fuzzy positions are not modelled.
- The embedding model (`to_vecs`), as an uninterpreted parameter.
  - It returns three reading-frame vectors. Here it is one flat vector of a
    fixed length.
  - It cannot raise in the model.
- The reader with biovec's real `to_vecs`. That call returns a list of three
  arrays, and `self.vector = v` stores the list. At the second CDS,
  `self.vector.size` (api/controller.py:66) would then raise AttributeError,
  since a list has no `size`. The model assumes `to_vecs` returns one array.
  biovec is not part of this model.
- `np.add` between vectors of different lengths (broadcasting, or a
  ValueError): excluded by the fixed embedding length.
- Floating-point rounding and summation order: vectors are exact reals.
- `ReadGenBank.ReadGB.PostInit`: does not state the partial `cluster` and
  `vector` left behind when the loop raises. `Read` discards that object, as
  the exception does in the source.
- `Analysis.__post_init__` (api/controller.py:83-88) is not modelled, so an
  analysis uses the vector it is given. The method is broken as written:
  - `Analysis` is declared with `def`, not `class`.
  - `scaler.transform()` is called with no sample.
  - The UMAP transform is loaded but never applied.
- The scale-then-reduce preprocessing, the check that the predicted class is
  the most probable one, probabilities that sum to one, the "exactly three
  classes" result shape and the `.gb`/`.gbk` file-extension check: none of
  these appears in the code.
- Flask routes, request keys and response dictionaries (app.py), and artifact
  paths and `joblib`/`biovec` loading (api/ml.py). A loader getter is
  described by what loading its artifact gives. That is the same on every call.

## Findings

| source | as written | input that shows it | evidently intended | confidence | as-written member | corrected member |
|---|---|---|---|---|---|---|
| api/controller.py:35-42 | `for i, record in enumerate(records)` iterates the SeqRecord itself, which yields the letters of its sequence. `record.type` on the first letter raises AttributeError. | a record with sequence `ATGAAATAA` and one complete CDS | iterate the record's features | high, not executed | `AsWritten.ScanRecordAsWritten` (shown by `AsWritten.RecordIterationLosesFeatures`) | `ReadGenBank.ScanFeatures` (its properties proved in `ReadGenBank.ClusterFollowsCds`, `ReadGenBank.VectorIsSum`) |
| api/controller.py:59 | `record.seq[start:stop]` reads `seq` from the loop variable, a feature, which has no such attribute. Every CDS raises. One that reaches line 59 raises AttributeError. | the same record | slice the parent record's sequence | medium (depends on the Biopython version), not executed | `AsWritten.StepAsWritten` (shown by `AsWritten.FeatureSeqRaises`) | `ReadGenBank.Step` (its slice proved in `ReadGenBank.ClusterFollowsCds`) |
