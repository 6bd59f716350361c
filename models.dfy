/** The retrieval models the query operators dispatch on, and the parameter records they carry.

    Only RetrievalModelBM25 has behaviour: it keeps its own query-term tally, a copy of the one in
    QrySop.  RetrievalModelIndri and SVMRankModel are parameter records. */
module RetrievalModels {
  import opened QueryTree
  import opened Tally

  /** The RetrievalModel subclasses an operator can be handed. */
  datatype ModelKind = UnrankedBoolean | RankedBoolean | BM25 | Indri | Letor

  /** r.getClass().getName(), which the operators put into their error messages. */
  function ClassName(m: ModelKind): string
  {
    match m
    case UnrankedBoolean => "RetrievalModelUnrankedBoolean"
    case RankedBoolean => "RetrievalModelRankedBoolean"
    case BM25 => "RetrievalModelBM25"
    case Indri => "RetrievalModelIndri"
    case Letor => "RetrievalModelLetor"
  }

  /** RetrievalModelIndri: the Dirichlet prior mu and the mixing weight lambda. */
  datatype IndriParams = IndriParams(mu: int, lambda: real)

  /** RetrievalModelIndri.defaultQrySopName. */
  function IndriDefaultQrySopName(): string
  {
    "#and"
  }

  /** SVMRankModel: the C parameter and the paths of the learning and classifying programs and of
      the model file. */
  datatype SvmRankParams = SvmRankParams(c: real, learnBinaryPath: string, classifyBinaryPath: string, modelPath: string)

  /** RetrievalModelBM25: the three BM25 parameters and a query-term tally. */
  class RetrievalModelBM25 {
    var k_1: real
    var b: real
    var k_3: real
    var queryFrequencies: Counts

    /** The parameters as given, and an empty tally. */
    constructor (k_1: real, b: real, k_3: real)
      ensures this.k_1 == k_1 && this.b == b && this.k_3 == k_3
      ensures queryFrequencies == map[]
    {
      this.k_1 := k_1;
      this.b := b;
      this.k_3 := k_3;
      queryFrequencies := map[];
    }

    function DefaultQrySopName(): string
    {
      "#sum"
    }

    /** A new node is counted once, a node already present once more; the parameters stay. */
    method AddQuery(q: Qry)
      modifies this
      ensures queryFrequencies == Bump(old(queryFrequencies), q)
      ensures k_1 == old(k_1) && b == old(b) && k_3 == old(k_3)
    {
      var k := KeyOf(q);
      if k in queryFrequencies {
        queryFrequencies := queryFrequencies[k := Entry(queryFrequencies[k].query, queryFrequencies[k].count + 1)];
      } else {
        queryFrequencies := queryFrequencies[k := Entry(q, 1)];
      }
    }

    /** The count of q, and 0 (not -1, as in QrySop) for a node never added. */
    function GetQueryFrequency(q: Qry): (r: int)
      reads this
      ensures KeyOf(q) !in queryFrequencies ==> r == 0
      ensures KeyOf(q) in queryFrequencies ==> r == queryFrequencies[KeyOf(q)].count
    {
      Frequency(queryFrequencies, q, 0)
    }

    function GetQueries(): set<Qry>
      reads this
    {
      Queries(queryFrequencies)
    }
  }
}
