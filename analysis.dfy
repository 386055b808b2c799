/** The classifier dispatch of the controller: each analysis fetches one
    pre-trained backend, asks it for the class and the class probabilities of
    the same stored vector, and returns the pair, or returns the exception that
    any of these steps raised. */
module Dispatch {
  import opened Results

  /** A raised Python exception, by class name and message. */
  datatype PyException = PyException(name: string, message: string)

  /** A fitted classifier, opaque: `predict` and `predict_proba`, each of which
      may raise. */
  datatype Classifier = Classifier(
    predict: seq<real> -> Result<int, PyException>,
    predictProba: seq<real> -> Result<seq<real>, PyException>)

  /** What a loader getter gives back: it raises, returns None, or returns a
      classifier. */
  type Backend = Result<Option<Classifier>, PyException>

  /** The artifact loader, given by what loading each classifier artifact
      produces. */
  datatype LoadModels = LoadModels(
    rf: Result<Classifier, PyException>,
    ada: Result<Classifier, PyException>,
    xgboost: Result<Classifier, PyException>,
    knn: Result<Classifier, PyException>,
    nn: Result<Classifier, PyException>)
  {
    function GetRf(): Backend { Returned(rf) }
    function GetAda(): Backend { Returned(ada) }
    function GetXg(): Backend { Returned(xgboost) }
    function GetKnn(): Backend { Returned(knn) }

    /** The neural-network getter loads its artifact but does not return it. */
    function GetNn(): (r: Backend)
      ensures r.Ok? <==> nn.Ok?
      ensures r.Ok? ==> r.value == None
      ensures r.Err? ==> r.error == nn.error
    {
      match nn
      case Err(e) => Err(e)
      case Ok(_) => Ok(None)
    }
  }

  /** A getter that returns what it loaded. */
  function Returned(loaded: Result<Classifier, PyException>): (r: Backend)
    ensures loaded.Ok? <==> r.Ok?
    ensures loaded.Ok? ==> r.value == Some(loaded.value)
    ensures loaded.Err? ==> r.error == loaded.error
  {
    match loaded
    case Err(e) => Err(e)
    case Ok(c) => Ok(Some(c))
  }

  /** What an analysis returns: the class and the probabilities, or the caught
      exception as a value of its own. */
  datatype Prediction =
    | Predicted(bgcClass: int, probability: seq<real>)
    | Raised(error: PyException)

  /** The exception raised by calling `predict` on None. */
  const NoneHasNoPredict := PyException("AttributeError", "'NoneType' object has no attribute 'predict'")

  /** The try/except of one analysis: fetch the backend, then `predict`, then
      `predict_proba`, both on the same vector `v`; the first step that raises
      decides the result. */
  function Classify(backend: Backend, v: seq<real>): (r: Prediction)
    ensures r.Predicted? <==>
      && backend.Ok? && backend.value.Some?
      && backend.value.value.predict(v).Ok? && backend.value.value.predictProba(v).Ok?
    ensures r.Predicted? ==>
      && r.bgcClass == backend.value.value.predict(v).value
      && r.probability == backend.value.value.predictProba(v).value
    ensures backend.Err? ==> r == Raised(backend.error)
    ensures backend == Ok(None) ==> r == Raised(NoneHasNoPredict)
    ensures backend.Ok? && backend.value.Some? && backend.value.value.predict(v).Err? ==>
      r == Raised(backend.value.value.predict(v).error)
    ensures backend.Ok? && backend.value.Some? && backend.value.value.predict(v).Ok? &&
            backend.value.value.predictProba(v).Err? ==>
      r == Raised(backend.value.value.predictProba(v).error)
  {
    match backend
    case Err(e) => Raised(e)
    case Ok(None) => Raised(NoneHasNoPredict)
    case Ok(Some(c)) =>
      match c.predict(v)
      case Err(e) => Raised(e)
      case Ok(bgcClass) =>
        match c.predictProba(v)
        case Err(e) => Raised(e)
        case Ok(probability) => Predicted(bgcClass, probability)
  }

  /** A loaded classifier answers with its own predictions on `v`, or with the
      exception the first failing call raised. */
  predicate AnswersFrom(r: Prediction, loaded: Result<Classifier, PyException>, v: seq<real>) {
    match loaded
    case Err(e) => r == Raised(e)
    case Ok(c) =>
      if c.predict(v).Err? then r == Raised(c.predict(v).error)
      else if c.predictProba(v).Err? then r == Raised(c.predictProba(v).error)
      else r == Predicted(c.predict(v).value, c.predictProba(v).value)
  }

  /** The analysis object: the stored vector and the shared loader. */
  class Analysis {
    var vector: seq<real>
    const loadModels: LoadModels

    constructor (vector: seq<real>, loadModels: LoadModels)
      ensures this.vector == vector && this.loadModels == loadModels
    {
      this.vector := vector;
      this.loadModels := loadModels;
    }

    method RfAnalysis() returns (r: Prediction)
      ensures AnswersFrom(r, loadModels.rf, vector)
    {
      r := Classify(loadModels.GetRf(), vector);
    }

    method AdaAnalysis() returns (r: Prediction)
      ensures AnswersFrom(r, loadModels.ada, vector)
    {
      r := Classify(loadModels.GetAda(), vector);
    }

    method XgAnalysis() returns (r: Prediction)
      ensures AnswersFrom(r, loadModels.xgboost, vector)
    {
      r := Classify(loadModels.GetXg(), vector);
    }

    method KnnAnalysis() returns (r: Prediction)
      ensures AnswersFrom(r, loadModels.knn, vector)
    {
      r := Classify(loadModels.GetKnn(), vector);
    }

    /** The loader hands back None, so this analysis always returns an
        exception: the loading error, or the AttributeError of `None.predict`. */
    method NnAnalysis() returns (r: Prediction)
      ensures r.Raised?
      ensures r.error == if loadModels.nn.Err? then loadModels.nn.error else NoneHasNoPredict
    {
      r := Classify(loadModels.GetNn(), vector);
    }
  }
}
