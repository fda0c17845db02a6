/** The seed data and lookup tables of constants.ts: the initial facilities,
    users, assets, change requests and work orders, the badge class of each
    MOC status and the colour of each risk level; and the referential
    integrity that holds between the seed arrays. */
module Constants {
  import opened Js
  import opened Types
  import RiskMatrix

  // ---------------------------------------------------------------------------
  // Seed arrays

  const InitialFacilities: seq<Facility> := [
    Facility("1", "P-50 Albacora Leste", "Bacia de Campos", "FPSO", Ativo),
    Facility("2", "P-57 Jubarte", "Bacia do Espírito Santo", "FPSO", Ativo),
    Facility("3", "Plataforma Mexilhão", "Bacia de Santos", "Fixa", Manutencao)
  ]

  const InitialUsers: seq<User> := [
    User("1", "Admin User", "admin@moctudio.com", Admin, true),
    User("2", "Carlos Processos", "carlos@oilgas.com", EngProcesso, true),
    User("3", "Ana HSE", "ana@oilgas.com", CoordHse, true)
  ]

  const InitialAssets: seq<Asset> := [
    Asset("ASSET-001", "1", "VAL-200-01", "Válvula de Esfera (SDV)", "Válvula de Segurança", "Operacional", "10/01/2024"),
    Asset("ASSET-002", "1", "PMP-105-A", "Bomba Centrífuga Multiestágio", "Bomba de Exportação", "Operacional", "15/12/2023"),
    Asset("ASSET-003", "2", "CMP-400-B", "Compressor de Gás Natural", "Compressor", "Manutenção", "20/02/2024"),
    Asset("ASSET-004", "3", "PIT-500-01", "Transmissor de Pressão Diferencial", "Instrumentação", "Operacional", "05/02/2024")
  ]

  const Moc001: MOCRequest :=
    MOCRequest(
      "MOC-24-001",
      "Upgrade do Sistema de Controle de Pressão - Linha 200",
      "Modernização dos transdutores e lógica de intertravamento para maior redundância.",
      "Substituição de 3 transmissores PT-201/202/203 por modelos HART 7. Atualização da lógica no PLC DeltaV.",
      "Redução de disparos espúrios e atendimento à nova norma de segurança funcional.",
      EmAvaliacao, "2", "1",
      "12/02/2024, 09:15:00", "12/02/2024, 14:30:00",
      [
        HistoryEntry("h1", "1", "Admin User", "Alteração de Status para: Em Avaliação", "12/02/2024, 14:30:00",
                     StatusChange, Some("Dossier completo recebido. Iniciando análise técnica multidisciplinar.")),
        HistoryEntry("h2", "2", "Carlos Processos", "Abertura de Solicitação", "12/02/2024, 09:15:00",
                     System, Some("MOC criada via template MAJOR."))
      ],
      Some("MAJOR"))

  const Moc002: MOCRequest :=
    MOCRequest(
      "MOC-24-002",
      "Troca Preventiva de Atuador da SDV-501",
      "Substituição do atuador pneumático por falha intermitente na mola de retorno.",
      "Remover atuador atual, instalar novo kit de vedação e mola. Testar tempo de fechamento (Stroke Test).",
      "Prevenção de falha no fechamento de emergência da linha de exportação.",
      Aprovado, "1", "2",
      "05/02/2024, 08:00:00", "06/02/2024, 10:00:00",
      [
        HistoryEntry("h3", "3", "Ana HSE", "Alteração de Status para: Aprovado", "06/02/2024, 10:00:00",
                     StatusChange, Some("Aprovado conforme análise de risco preliminar. Proceder com cautela durante o isolamento."))
      ],
      Some("ROUTINE"))

  const Moc003: MOCRequest :=
    MOCRequest(
      "MOC-24-003",
      "Reparo de Vazamento em Linha de Ar Comprimido",
      "Furo detectado por corrosão sob isolamento em trecho de 2 polegadas.",
      "Corte do trecho corroído e soldagem de nova luva. Ensaio de líquido penetrante na solda.",
      "Risco de perda de pressão nos instrumentos de controle da plataforma.",
      Concluido, "2", "3",
      "01/02/2024, 11:45:00", "03/02/2024, 17:00:00",
      [
        HistoryEntry("h4", "1", "Admin User", "Alteração de Status para: Concluído", "03/02/2024, 17:00:00",
                     StatusChange, Some("Reparo executado e testado com sucesso. Dossier arquivado."))
      ],
      Some("EMERGENCY"))

  const Moc004: MOCRequest :=
    MOCRequest(
      "MOC-24-004",
      "Alteração de Layout em Oficina de Manutenção",
      "Instalação de novas bancadas e remoção de antepara corta-fogo.",
      "Remover antepara da seção B para expandir área de soldagem.",
      "Necessidade de maior espaço para montagem de spools.",
      Rejeitado, "2", "1",
      "20/01/2024, 14:00:00", "22/01/2024, 16:30:00",
      [
        HistoryEntry("h5", "3", "Ana HSE", "Alteração de Status para: Rejeitado", "22/01/2024, 16:30:00",
                     StatusChange, Some("A remoção da antepara corta-fogo compromete a compartimentação de incêndio do deck principal. Proposta indeferida por riscos de segurança."))
      ],
      Some("MAJOR"))

  const InitialMocs: seq<MOCRequest> := [Moc001, Moc002, Moc003, Moc004]

  const InitialWorkOrders: seq<WorkOrder> := [
    WorkOrder("WO-001", "", "Calibração de Sensores de Pressão - Linha A", "João Técnico", "2024-05-20",
              Pendente, Some("10/05/2024"), None),
    WorkOrder("WO-002", "", "Inspeção Visual de Flanges e Conexões", "Maria Engenheira", "2024-05-22",
              Pendente, Some("11/05/2024"), None),
    WorkOrder("WO-2024-01", "MOC-24-001", "Substituição de Atuador de Válvula Esfera", "Marcos Silva", "2024-02-15",
              EmAndamento, Some("01/02/2024"), None)
  ]

  // ---------------------------------------------------------------------------
  // Identifiers

  /** The ids of `records`, in order. */
  function Ids<T>(records: seq<T>, id: T -> string): (r: seq<string>)
    ensures |r| == |records|
    ensures forall k :: 0 <= k < |r| ==> r[k] == id(records[k])
  {
    seq(|records|, k requires 0 <= k < |records| => id(records[k]))
  }

  predicate Distinct(ids: seq<string>) {
    forall i, j :: 0 <= i < j < |ids| ==> ids[i] != ids[j]
  }

  function FacilityId(f: Facility): string { f.id }
  function UserId(u: User): string { u.id }
  function AssetId(a: Asset): string { a.id }
  function MocId(m: MOCRequest): string { m.id }
  function WorkOrderId(w: WorkOrder): string { w.id }

  lemma FacilityIdList()
    ensures Ids(InitialFacilities, FacilityId) == ["1", "2", "3"]
  {
  }

  lemma UserIdList()
    ensures Ids(InitialUsers, UserId) == ["1", "2", "3"]
  {
  }

  lemma MocIdList()
    ensures Ids(InitialMocs, MocId) == ["MOC-24-001", "MOC-24-002", "MOC-24-003", "MOC-24-004"]
  {
  }

  lemma AssetIdList()
    ensures Ids(InitialAssets, AssetId) == ["ASSET-001", "ASSET-002", "ASSET-003", "ASSET-004"]
  {
  }

  lemma WorkOrderIdList()
    ensures Ids(InitialWorkOrders, WorkOrderId) == ["WO-001", "WO-002", "WO-2024-01"]
  {
  }

  /** Ids are unique within each seed array. */
  lemma SeedIdsUnique()
    ensures Distinct(Ids(InitialFacilities, FacilityId))
    ensures Distinct(Ids(InitialUsers, UserId))
    ensures Distinct(Ids(InitialAssets, AssetId))
    ensures Distinct(Ids(InitialMocs, MocId))
    ensures Distinct(Ids(InitialWorkOrders, WorkOrderId))
  {
    FacilityIdList();
    UserIdList();
    AssetIdList();
    MocIdList();
    WorkOrderIdList();
  }

  // ---------------------------------------------------------------------------
  // References between the seed arrays

  /** Every seed asset and every seed MOC sits on a seed facility. */
  lemma FacilityReferences()
    ensures forall k :: 0 <= k < |InitialAssets| ==> InitialAssets[k].facilityId in Ids(InitialFacilities, FacilityId)
    ensures forall k :: 0 <= k < |InitialMocs| ==> InitialMocs[k].facilityId in Ids(InitialFacilities, FacilityId)
  {
    FacilityIdList();
  }

  /** Some seed user has this id and this name. */
  predicate IsSeedUser(id: string, name: string) {
    exists k :: 0 <= k < |InitialUsers| && InitialUsers[k].id == id && InitialUsers[k].name == name
  }

  /** Every seed MOC's requester is a seed user, and every history entry
      names a seed user under the name that user has. */
  lemma UserReferences()
    ensures forall k :: 0 <= k < |InitialMocs| ==> InitialMocs[k].requesterId in Ids(InitialUsers, UserId)
    ensures forall k, e :: 0 <= k < |InitialMocs| && e in InitialMocs[k].history ==> IsSeedUser(e.userId, e.userName)
  {
    UserIdList();
    assert IsSeedUser("1", "Admin User") by { assert InitialUsers[0].name == "Admin User"; }
    assert IsSeedUser("2", "Carlos Processos") by { assert InitialUsers[1].name == "Carlos Processos"; }
    assert IsSeedUser("3", "Ana HSE") by { assert InitialUsers[2].name == "Ana HSE"; }
    forall k, e | 0 <= k < |InitialMocs| && e in InitialMocs[k].history
      ensures IsSeedUser(e.userId, e.userName)
    {
      assert k == 0 || k == 1 || k == 2 || k == 3;
    }
  }

  /** Every seed work order either stands alone (empty `mocId`) or belongs
      to a seed MOC. */
  lemma WorkOrderReferences()
    ensures forall k :: 0 <= k < |InitialWorkOrders| ==>
              InitialWorkOrders[k].mocId == "" || InitialWorkOrders[k].mocId in Ids(InitialMocs, MocId)
  {
    MocIdList();
  }

  // ---------------------------------------------------------------------------
  // Histories

  /** A `toLocaleString('pt-BR')` timestamp: "dd/mm/yyyy, hh:mm:ss". */
  predicate IsTimestamp(ts: string) {
    |ts| == 20 &&
    IsDigit(ts[0]) && IsDigit(ts[1]) && ts[2] == '/' && IsDigit(ts[3]) && IsDigit(ts[4]) && ts[5] == '/' &&
    IsDigit(ts[6]) && IsDigit(ts[7]) && IsDigit(ts[8]) && IsDigit(ts[9]) && ts[10] == ',' && ts[11] == ' ' &&
    IsDigit(ts[12]) && IsDigit(ts[13]) && ts[14] == ':' && IsDigit(ts[15]) && IsDigit(ts[16]) && ts[17] == ':' &&
    IsDigit(ts[18]) && IsDigit(ts[19])
  }

  function DigitValue(c: char): int {
    c as int - '0' as int
  }

  /** The instant a timestamp denotes, as the number yyyymmddhhmmss, which
      orders timestamps chronologically. */
  function TimestampKey(ts: string): int
    requires IsTimestamp(ts)
  {
    var year := DigitValue(ts[6]) * 1000 + DigitValue(ts[7]) * 100 + DigitValue(ts[8]) * 10 + DigitValue(ts[9]);
    var month := DigitValue(ts[3]) * 10 + DigitValue(ts[4]);
    var day := DigitValue(ts[0]) * 10 + DigitValue(ts[1]);
    var hour := DigitValue(ts[12]) * 10 + DigitValue(ts[13]);
    var minute := DigitValue(ts[15]) * 10 + DigitValue(ts[16]);
    var second := DigitValue(ts[18]) * 10 + DigitValue(ts[19]);
    ((((year * 100 + month) * 100 + day) * 100 + hour) * 100 + minute) * 100 + second
  }

  /** Every entry carries a timestamp and the entries run from the newest to
      the oldest. */
  predicate NewestFirst(history: seq<HistoryEntry>) {
    (forall i :: 0 <= i < |history| ==> IsTimestamp(history[i].timestamp)) &&
    forall i, j :: 0 <= i < j < |history| ==> TimestampKey(history[j].timestamp) <= TimestampKey(history[i].timestamp)
  }

  /** A seed MOC's history is newest first, and its `updatedAt` is the time
      of its newest entry. */
  predicate UpdatedAtNewest(m: MOCRequest) {
    NewestFirst(m.history) && |m.history| > 0 && m.updatedAt == m.history[0].timestamp
  }

  /** The two entries of the first seed MOC: moved to "Em Avaliação" at
      14:30 after being opened at 09:15 the same day. */
  lemma Moc001Timestamps()
    ensures IsTimestamp("12/02/2024, 14:30:00") && IsTimestamp("12/02/2024, 09:15:00")
    ensures TimestampKey("12/02/2024, 09:15:00") < TimestampKey("12/02/2024, 14:30:00")
  {
    assert TimestampKey("12/02/2024, 14:30:00") == 20240212143000;
    assert TimestampKey("12/02/2024, 09:15:00") == 20240212091500;
  }

  lemma TwoEntriesNewest(m: MOCRequest)
    requires |m.history| == 2 && IsTimestamp(m.history[0].timestamp) && IsTimestamp(m.history[1].timestamp)
    requires TimestampKey(m.history[1].timestamp) <= TimestampKey(m.history[0].timestamp)
    requires m.updatedAt == m.history[0].timestamp
    ensures UpdatedAtNewest(m)
  {
  }

  /** A one-entry history is newest first once its entry is a timestamp. */
  lemma SingleEntryNewest(m: MOCRequest)
    requires |m.history| == 1 && IsTimestamp(m.history[0].timestamp)
    requires m.updatedAt == m.history[0].timestamp
    ensures UpdatedAtNewest(m)
  {
  }

  lemma Moc001Newest() ensures UpdatedAtNewest(Moc001) {
    Moc001Timestamps();
    TwoEntriesNewest(Moc001);
  }

  lemma Moc002Newest() ensures UpdatedAtNewest(Moc002) {
    SingleEntryNewest(Moc002);
  }

  lemma Moc003Newest() ensures UpdatedAtNewest(Moc003) {
    SingleEntryNewest(Moc003);
  }

  lemma Moc004Newest() ensures UpdatedAtNewest(Moc004) {
    SingleEntryNewest(Moc004);
  }

  /** Each seed MOC's history is newest first, and its `updatedAt` is the
      time of its newest entry. */
  lemma SeedHistoriesNewestFirst()
    ensures forall k :: 0 <= k < |InitialMocs| ==> UpdatedAtNewest(InitialMocs[k])
  {
    Moc001Newest();
    Moc002Newest();
    Moc003Newest();
    Moc004Newest();
  }

  /** The text of a status-change entry, before the new status. */
  const StatusChangePrefix: string := "Alteração de Status para: "

  /** The newest status-change entry of a history, if any. */
  function NewestStatusChange(history: seq<HistoryEntry>): Option<HistoryEntry> {
    Find(history, (e: HistoryEntry) => e.kind == StatusChange)
  }

  /** The newest status change announces the MOC's current status. */
  predicate AnnouncesStatus(m: MOCRequest) {
    var c := NewestStatusChange(m.history);
    c.Some? && c.value.action == StatusChangePrefix + StatusLabel(m.status)
  }

  lemma HeadAnnounces(m: MOCRequest)
    requires |m.history| > 0 && m.history[0].kind == StatusChange
    requires m.history[0].action == StatusChangePrefix + StatusLabel(m.status)
    ensures AnnouncesStatus(m)
  {
    assert NewestStatusChange(m.history) == Some(m.history[0]);
  }

  lemma Moc001Announces() ensures AnnouncesStatus(Moc001) {
    HeadAnnounces(Moc001);
  }

  lemma Moc002Announces() ensures AnnouncesStatus(Moc002) {
    HeadAnnounces(Moc002);
  }

  lemma Moc003Announces() ensures AnnouncesStatus(Moc003) {
    HeadAnnounces(Moc003);
  }

  lemma Moc004Announces() ensures AnnouncesStatus(Moc004) {
    HeadAnnounces(Moc004);
  }

  /** In each seed MOC the newest status change announces the MOC's current status. */
  lemma SeedStatusChangesAnnounceStatus()
    ensures forall k :: 0 <= k < |InitialMocs| ==> AnnouncesStatus(InitialMocs[k])
  {
    Moc001Announces();
    Moc002Announces();
    Moc003Announces();
    Moc004Announces();
  }

  // ---------------------------------------------------------------------------
  // Colour tables

  /** `MOC_STATUS_COLORS`: the badge classes of each status. */
  function MocStatusColor(s: MOCStatus): string {
    match s
    case Rascunho => "bg-gray-200 text-gray-700"
    case Submetido => "bg-blue-100 text-blue-700"
    case EmAvaliacao => "bg-amber-100 text-amber-700"
    case EmRevisao => "bg-purple-100 text-purple-700"
    case Aprovado => "bg-emerald-100 text-emerald-700"
    case Rejeitado => "bg-red-100 text-red-700"
    case Implementado => "bg-indigo-100 text-indigo-700"
    case Concluido => "bg-teal-100 text-teal-700"
  }

  /** Every status has a badge of its own: the table tells the eight apart. */
  lemma MocStatusColorsDistinct()
    ensures forall s1, s2 :: MocStatusColor(s1) == MocStatusColor(s2) ==> s1 == s2
  {
    forall s1, s2 | MocStatusColor(s1) == MocStatusColor(s2) ensures s1 == s2 {
      assert MocStatusColor(s1)[3] == MocStatusColor(s2)[3];
    }
  }

  /** `RISK_LEVEL_COLORS`. */
  function RiskLevelColor(l: RiskLevel): string {
    match l
    case Baixo => "bg-emerald-500"
    case Medio => "bg-yellow-400"
    case Alto => "bg-orange-500"
    case Critico => "bg-red-600"
  }

  /** The matrix band each risk level names. */
  function LevelTier(l: RiskLevel): RiskMatrix.Tier {
    match l
    case Baixo => RiskMatrix.Low
    case Medio => RiskMatrix.Medium
    case Alto => RiskMatrix.High
    case Critico => RiskMatrix.Extreme
  }

  /** The level colours agree with the matrix's band colours except for
      "Médio", which is a lighter yellow here (400) than in the matrix (500). */
  lemma RiskLevelColorsVersusMatrix(l: RiskLevel)
    ensures RiskLevelColor(l) == RiskMatrix.TierColor(LevelTier(l)) <==> l != Medio
  {
    if l == Medio {
      assert RiskLevelColor(l)[10] != RiskMatrix.TierColor(LevelTier(l))[10];
    }
  }
}
