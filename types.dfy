/** The state space of the dashboard (types.ts): the role, status and risk
    enumerations, each with the string value the TypeScript enum gives it, and
    the records the seed data and the screens are made of. Identifiers and
    timestamps are the source's strings. */
module Types {
  import opened Js

  /** `UserRole`. */
  datatype UserRole =
    | Admin
    | GerenteInstalacao
    | EngProcesso
    | TecnicoManutencao
    | CoordHse
    | ComiteAprovacao

  /** The string each `UserRole` member stands for. */
  function RoleValue(r: UserRole): string {
    match r
    case Admin => "ADMIN"
    case GerenteInstalacao => "GERENTE_INSTALACAO"
    case EngProcesso => "ENG_PROCESSO"
    case TecnicoManutencao => "TECNICO_MANUTENCAO"
    case CoordHse => "COORD_HSE"
    case ComiteAprovacao => "COMITE_APROVACAO"
  }

  const AllRoles: seq<UserRole> :=
    [Admin, GerenteInstalacao, EngProcesso, TecnicoManutencao, CoordHse, ComiteAprovacao]

  /** The enumeration has exactly six members, Admin among them, with distinct values. */
  lemma RolesEnumerated()
    ensures |AllRoles| == 6 && Admin in AllRoles
    ensures forall r: UserRole :: r in AllRoles
    ensures forall i, j :: 0 <= i < j < |AllRoles| ==> AllRoles[i] != AllRoles[j]
    ensures forall r1, r2 :: RoleValue(r1) == RoleValue(r2) ==> r1 == r2
  {
    forall r: UserRole ensures r in AllRoles {
      match r
      case Admin => assert AllRoles[0] == r;
      case GerenteInstalacao => assert AllRoles[1] == r;
      case EngProcesso => assert AllRoles[2] == r;
      case TecnicoManutencao => assert AllRoles[3] == r;
      case CoordHse => assert AllRoles[4] == r;
      case ComiteAprovacao => assert AllRoles[5] == r;
    }
  }

  /** `MOCStatus`. */
  datatype MOCStatus =
    | Rascunho
    | Submetido
    | EmAvaliacao
    | EmRevisao
    | Aprovado
    | Rejeitado
    | Implementado
    | Concluido

  /** The Portuguese label each `MOCStatus` member stands for. */
  function StatusLabel(s: MOCStatus): string {
    match s
    case Rascunho => "Rascunho"
    case Submetido => "Submetido"
    case EmAvaliacao => "Em Avaliação"
    case EmRevisao => "Em Revisão"
    case Aprovado => "Aprovado"
    case Rejeitado => "Rejeitado"
    case Implementado => "Implementado"
    case Concluido => "Concluído"
  }

  const AllStatuses: seq<MOCStatus> :=
    [Rascunho, Submetido, EmAvaliacao, EmRevisao, Aprovado, Rejeitado, Implementado, Concluido]

  /** Exactly eight statuses, each with its own label. */
  lemma StatusesEnumerated()
    ensures |AllStatuses| == 8
    ensures forall s: MOCStatus :: s in AllStatuses
    ensures forall i, j :: 0 <= i < j < |AllStatuses| ==> AllStatuses[i] != AllStatuses[j]
    ensures forall s1, s2 :: StatusLabel(s1) == StatusLabel(s2) ==> s1 == s2
  {
    forall s: MOCStatus ensures s in AllStatuses {
      match s
      case Rascunho => assert AllStatuses[0] == s;
      case Submetido => assert AllStatuses[1] == s;
      case EmAvaliacao => assert AllStatuses[2] == s;
      case EmRevisao => assert AllStatuses[3] == s;
      case Aprovado => assert AllStatuses[4] == s;
      case Rejeitado => assert AllStatuses[5] == s;
      case Implementado => assert AllStatuses[6] == s;
      case Concluido => assert AllStatuses[7] == s;
    }
  }

  /** `RiskLevel`. */
  datatype RiskLevel = Baixo | Medio | Alto | Critico

  function RiskLevelLabel(l: RiskLevel): string {
    match l
    case Baixo => "Baixo"
    case Medio => "Médio"
    case Alto => "Alto"
    case Critico => "Crítico"
  }

  const AllRiskLevels: seq<RiskLevel> := [Baixo, Medio, Alto, Critico]

  /** Exactly four risk levels, each with its own label. */
  lemma RiskLevelsEnumerated()
    ensures |AllRiskLevels| == 4
    ensures forall l: RiskLevel :: l in AllRiskLevels
    ensures forall i, j :: 0 <= i < j < |AllRiskLevels| ==> AllRiskLevels[i] != AllRiskLevels[j]
    ensures forall l1, l2 :: RiskLevelLabel(l1) == RiskLevelLabel(l2) ==> l1 == l2
  {
    forall l: RiskLevel ensures l in AllRiskLevels {
      match l
      case Baixo => assert AllRiskLevels[0] == l;
      case Medio => assert AllRiskLevels[1] == l;
      case Alto => assert AllRiskLevels[2] == l;
      case Critico => assert AllRiskLevels[3] == l;
    }
  }

  /** The `type` of a `MOCHistoryEntry`. */
  datatype HistoryKind = StatusChange | Comment | System | WorkOrderEvent

  function HistoryKindValue(k: HistoryKind): string {
    match k
    case StatusChange => "status_change"
    case Comment => "comment"
    case System => "system"
    case WorkOrderEvent => "work_order"
  }

  /** The four kinds are written differently (their lengths differ), so the
      stored `type` string identifies the kind. */
  lemma HistoryKindValuesDistinct(a: HistoryKind, b: HistoryKind)
    ensures HistoryKindValue(a) == HistoryKindValue(b) <==> a == b
  {
    if a != b {
      HistoryKindValueLength(a);
      HistoryKindValueLength(b);
    }
  }

  lemma HistoryKindValueLength(k: HistoryKind)
    ensures |HistoryKindValue(k)| == match k case StatusChange => 13 case Comment => 7 case System => 6 case WorkOrderEvent => 10
  {
  }

  /** `Facility.status`. */
  datatype FacilityStatus = Ativo | Inativo | Manutencao

  /** `WorkOrder.status`. */
  datatype WorkOrderStatus = Pendente | EmAndamento | Concluida | Atrasada

  datatype User = User(id: string, name: string, email: string, role: UserRole, active: bool)

  datatype AuthResponse = AuthResponse(user: User, token: string, refreshToken: string)

  /** One entry of an MOC's history; `userName` is a snapshot taken when the entry was written. */
  datatype HistoryEntry = HistoryEntry(
    id: string,
    userId: string,
    userName: string,
    action: string,
    timestamp: string,
    kind: HistoryKind,
    details: Option<string>)

  datatype Facility = Facility(id: string, name: string, location: string, facilityType: string, status: FacilityStatus)

  datatype Asset = Asset(
    id: string,
    facilityId: string,
    tag: string,
    name: string,
    assetType: string,
    status: string,
    lastMaintenance: string)

  datatype MOCRequest = MOCRequest(
    id: string,
    title: string,
    description: string,
    scope: string,
    justification: string,
    status: MOCStatus,
    requesterId: string,
    facilityId: string,
    createdAt: string,
    updatedAt: string,
    history: seq<HistoryEntry>,
    mocType: Option<string>)

  datatype RiskAssessment = RiskAssessment(
    id: string,
    mocId: string,
    probability: int,
    severity: int,
    mitigationMeasures: string,
    residualRisk: RiskLevel)

  /** The documented range of an assessment's two factors: integers from 1 to 5. */
  predicate FactorsInRange(a: RiskAssessment) {
    1 <= a.probability <= 5 && 1 <= a.severity <= 5
  }

  datatype WorkOrder = WorkOrder(
    id: string,
    mocId: string,
    title: string,
    assignedTo: string,
    dueDate: string,
    status: WorkOrderStatus,
    createdAt: Option<string>,
    notificationEmail: Option<string>)
}
