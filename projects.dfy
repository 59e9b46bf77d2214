/**
 * The static project tables and the pure part of the modal: looking a
 * project up by id and rendering its record. main-clean.js and projects.js
 * each carry their own table with the same four ids and different texts.
 */
module Projects {
  import opened Wrappers

  /** One project record. */
  datatype Project = Project(
    title: string,
    status: string,
    description: string,
    features: seq<string>,
    technologies: seq<string>,
    challenges: seq<string>,
    outcomes: seq<string>)

  /** The class of the status badge in main-clean.js. */
  datatype Badge = StatusProgress | StatusLive

  /** A rendered entry: a list item of a feature, challenge or outcome list, or a technology badge. */
  datatype ItemKind = ListItem | TechBadge
  datatype Item = Item(kind: ItemKind, text: string)

  /** The modal body, as structure rather than markup. `badge` is None where the status carries no badge class. */
  datatype View = View(
    title: string,
    status: string,
    badge: Option<Badge>,
    description: string,
    features: seq<Item>,
    technologies: seq<Item>,
    challenges: seq<Item>,
    outcomes: seq<Item>)

  /** `sub` occurs in `s` at position `i`. */
  predicate OccursAt(s: string, sub: string, i: int) {
    0 <= i && i + |sub| <= |s| && s[i..i + |sub|] == sub
  }

  /** `String.prototype.includes`: does `sub` occur anywhere in `s`? */
  function Includes(s: string, sub: string): (r: bool)
    ensures r <==> exists i :: OccursAt(s, sub, i)
    decreases |s|
  {
    if |sub| > |s| then false
    else if s[..|sub|] == sub then assert OccursAt(s, sub, 0); true
    else
      assert forall i :: OccursAt(s, sub, i + 1) <==> OccursAt(s[1..], sub, i) by {
        forall i ensures OccursAt(s, sub, i + 1) <==> OccursAt(s[1..], sub, i) {
          if 0 <= i && i + 1 + |sub| <= |s| {
            assert s[1..][i..i + |sub|] == s[i + 1..i + 1 + |sub|];
          }
        }
      }
      assert !OccursAt(s, sub, 0);
      assert forall i :: OccursAt(s, sub, i) ==> OccursAt(s[1..], sub, i - 1) by {
        forall i | OccursAt(s, sub, i) ensures OccursAt(s[1..], sub, i - 1) {
          assert OccursAt(s, sub, (i - 1) + 1);
        }
      }
      Includes(s[1..], sub)
  }

  /** The badge of main-clean.js: `status-progress` when the status mentions "Progress", else `status-live`. */
  function StatusBadge(status: string): (b: Badge)
    ensures b == StatusProgress <==> exists i :: OccursAt(status, "Progress", i)
  {
    if Includes(status, "Progress") then StatusProgress else StatusLive
  }

  /** `texts.map(...)`: one item of `kind` per entry, in table order. */
  function Items(texts: seq<string>, kind: ItemKind): (r: seq<Item>)
    ensures |r| == |texts|
    ensures forall i :: 0 <= i < |texts| ==> r[i] == Item(kind, texts[i])
    decreases |texts|
  {
    if texts == [] then [] else [Item(kind, texts[0])] + Items(texts[1..], kind)
  }

  /** The modal body written by `showProjectModal` in main-clean.js. */
  function RenderClean(p: Project): (v: View)
    ensures v.title == p.title && v.status == p.status && v.description == p.description
    ensures v.badge == Some(StatusBadge(p.status))
    ensures Texts(v.features) == p.features && Texts(v.technologies) == p.technologies
    ensures Texts(v.challenges) == p.challenges && Texts(v.outcomes) == p.outcomes
  {
    ItemsRoundTrip(p.features, ListItem);
    ItemsRoundTrip(p.technologies, TechBadge);
    ItemsRoundTrip(p.challenges, ListItem);
    ItemsRoundTrip(p.outcomes, ListItem);
    View(p.title, p.status, Some(StatusBadge(p.status)), p.description,
         Items(p.features, ListItem), Items(p.technologies, TechBadge),
         Items(p.challenges, ListItem), Items(p.outcomes, ListItem))
  }

  /** The modal body written by `showProject` in projects.js: the status carries no badge class. */
  function RenderModal(p: Project): (v: View)
    ensures v.title == p.title && v.status == p.status && v.description == p.description
    ensures Texts(v.features) == p.features && Texts(v.technologies) == p.technologies
    ensures Texts(v.challenges) == p.challenges && Texts(v.outcomes) == p.outcomes
  {
    ItemsRoundTrip(p.features, ListItem);
    ItemsRoundTrip(p.technologies, TechBadge);
    ItemsRoundTrip(p.challenges, ListItem);
    ItemsRoundTrip(p.outcomes, ListItem);
    View(p.title, p.status, None, p.description,
         Items(p.features, ListItem), Items(p.technologies, TechBadge),
         Items(p.challenges, ListItem), Items(p.outcomes, ListItem))
  }

  /** The texts of a rendered list, read back. */
  function Texts(items: seq<Item>): (r: seq<string>)
    ensures |r| == |items|
    ensures forall i :: 0 <= i < |items| ==> r[i] == items[i].text
    decreases |items|
  {
    if items == [] then [] else [items[0].text] + Texts(items[1..])
  }

  /** Rendering loses nothing and reorders nothing: each list's texts read back as the record's list. */
  lemma {:induction false} ItemsRoundTrip(texts: seq<string>, kind: ItemKind)
    ensures Texts(Items(texts, kind)) == texts
    decreases |texts|
  {
    if texts != [] {
      ItemsRoundTrip(texts[1..], kind);
      assert Items(texts, kind)[1..] == Items(texts[1..], kind);
    }
  }

  /**
   * Both renderings show the record's title, status and description as they
   * are, keep every list in table order, and only main-clean.js adds a badge.
   */
  lemma RenderKeepsLists(p: Project)
    ensures RenderClean(p).title == p.title && RenderClean(p).status == p.status && RenderClean(p).description == p.description
    ensures RenderModal(p).title == p.title && RenderModal(p).status == p.status && RenderModal(p).description == p.description
    ensures RenderClean(p).badge == Some(StatusBadge(p.status)) && RenderModal(p).badge.None?
    ensures Texts(RenderClean(p).features) == p.features && Texts(RenderModal(p).features) == p.features
    ensures Texts(RenderClean(p).technologies) == p.technologies && Texts(RenderModal(p).technologies) == p.technologies
    ensures Texts(RenderClean(p).challenges) == p.challenges && Texts(RenderModal(p).challenges) == p.challenges
    ensures Texts(RenderClean(p).outcomes) == p.outcomes && Texts(RenderModal(p).outcomes) == p.outcomes
  {
    ItemsRoundTrip(p.features, ListItem);
    ItemsRoundTrip(p.technologies, TechBadge);
    ItemsRoundTrip(p.challenges, ListItem);
    ItemsRoundTrip(p.outcomes, ListItem);
  }

  /** `projects[id]`: the record under `id`, or nothing. */
  function Lookup(table: map<string, Project>, id: string): (r: Option<Project>)
    ensures r.Some? <==> id in table
    ensures r.Some? ==> r.value == table[id]
  {
    if id in table then Some(table[id]) else None
  }

  /** The ids both tables are keyed by. */
  const ProjectIds: set<string> := {"api-integration", "rentable", "chat", "events"}

  /** The table of main-clean.js. */
  function CleanProjects(): (t: map<string, Project>)
    ensures t.Keys == ProjectIds
  {
    map[
      "api-integration" := CleanApiIntegration,
      "rentable" := CleanRentable,
      "chat" := CleanChat,
      "events" := CleanEvents
    ]
  }

  /** The "api-integration" record of main-clean.js. */
  const CleanApiIntegration: Project := Project(
    "API Integration Platform",
    "Development in Progress",
    "Building a comprehensive platform to automate and synchronize data flows between multiple SaaS applications.",
    ["Pre-built connectors for popular SaaS apps (Salesforce, HubSpot, Stripe, etc.)",
     "Visual data mapping interface with drag-and-drop",
     "Real-time data synchronization with conflict resolution",
     "Webhook management and event-driven architecture",
     "OAuth2 authentication with secure token management",
     "Monitoring dashboard with analytics and logs"],
    ["Spring Boot", "Apache Kafka", "PostgreSQL", "Redis", "React", "OAuth2", "Docker", "Traefik"],
    ["Ensuring data consistency across distributed systems",
     "Handling rate limits from various APIs",
     "Building a scalable message queue architecture",
     "Implementing secure authentication flows"],
    ["70% reduction in manual data entry tasks",
     "Support for 15+ SaaS integrations",
     "Processing 100K+ events daily",
     "Sub-second latency for most operations"])

  /** The "rentable" record of main-clean.js. */
  const CleanRentable: Project := Project(
    "Rentable Platform - P2P Marketplace",
    "Live in Production",
    "A peer-to-peer marketplace enabling users to rent out their items or find things to rent nearby.",
    ["User authentication with JWT and session management",
     "Item listing with image upload to MinIO object storage",
     "Stripe payment integration with escrow system",
     "Real-time messaging between renters and owners",
     "Rating and review system",
     "Email notifications for bookings and messages"],
    ["Express.js", "React", "MongoDB", "MinIO", "Stripe API", "Nodemailer", "Redis", "Socket.io"],
    ["Implementing secure payment flows with Stripe",
     "Managing transaction states and refunds",
     "Optimizing image storage and delivery",
     "Building real-time chat with message persistence"],
    ["500+ active users",
     "1000+ items listed",
     "$50K+ in transactions processed",
     "4.5/5 average user rating"])

  /** The "chat" record of main-clean.js. */
  const CleanChat: Project := Project(
    "Live Chat Application",
    "Live in Production",
    "Scalable real-time messaging application supporting thousands of concurrent users.",
    ["Real-time messaging with WebSocket connections",
     "Public and private chat rooms",
     "Message history with pagination",
     "Online/offline presence indicators",
     "File and image sharing",
     "Message reactions and threading"],
    ["Spring Boot", "Spring Cloud", "Kafka", "WebSockets", "Redis", "PostgreSQL", "React", "Docker"],
    ["Scaling WebSocket connections across multiple servers",
     "Message ordering and delivery guarantees",
     "Handling connection failures and reconnection",
     "Optimizing message storage and retrieval"],
    ["10,000+ concurrent connections",
     "< 50ms message latency",
     "99.9% uptime",
     "1M+ messages processed daily"])

  /** The "events" record of main-clean.js. */
  const CleanEvents: Project := Project(
    "Academic Event Management Platform",
    "Production",
    "Comprehensive platform for managing all academic events at EHTP university.",
    ["Event creation with custom registration forms",
     "QR code-based check-in system",
     "Automated certificate generation",
     "Email campaigns and notifications",
     "Analytics dashboard for organizers",
     "Integration with university calendar"],
    ["Spring Boot", "React", "PostgreSQL", "Docker", "PDF Generation", "Email Service"],
    ["Handling registration spikes during popular events",
     "Generating unique certificates at scale",
     "Building a flexible form builder",
     "Ensuring data privacy compliance"],
    ["2,000+ active users",
     "50+ events managed per year",
     "80% reduction in administrative time",
     "95% attendee satisfaction rate"])

  /** The table returned by `getProjectData` in projects.js. */
  function ModalProjects(): (t: map<string, Project>)
    ensures t.Keys == ProjectIds
  {
    map[
      "api-integration" := ModalApiIntegration,
      "rentable" := ModalRentable,
      "chat" := ModalChat,
      "events" := ModalEvents
    ]
  }

  /** The "api-integration" record of projects.js. */
  const ModalApiIntegration: Project := Project(
    "API Integration Platform",
    "Development in Progress",
    "Building a comprehensive platform to automate and synchronize data flows between multiple SaaS applications with pre-built connectors and flexible data mapping.",
    ["Pre-built connectors for popular SaaS applications",
     "Flexible and intuitive data mapping system",
     "Automatic error handling and retry mechanisms",
     "Real-time monitoring of data flows",
     "RESTful API for custom integrations",
     "Secure OAuth2 authentication"],
    ["Spring Boot", "Kafka", "PostgreSQL", "Redis", "React", "OAuth2", "Docker", "Traefik"],
    ["Managing data consistency across systems",
     "Performance optimization for high volumes",
     "Building a scalable microservices architecture"],
    ["70% reduction in synchronization time",
     "Highly available microservices architecture",
     "Support for 10+ SaaS integrations"])

  /** The "rentable" record of projects.js. */
  const ModalRentable: Project := Project(
    "Rentable Platform - P2P Marketplace",
    "Production",
    "Innovative peer-to-peer marketplace enabling users to rent or list their items with a secure payment system built on microservices architecture.",
    ["Complete authentication and authorization system",
     "Listing management with image upload (MinIO)",
     "Secure payment integration with Stripe",
     "Real-time messaging system",
     "Automated email notifications",
     "User rating and review system"],
    ["Express.js", "React", "MongoDB", "MinIO", "Stripe API", "Nodemailer", "Redis"],
    ["Implementing secure payment processing",
     "Managing transactions and escrows",
     "Optimizing image storage and delivery"],
    ["500+ active users",
     "25% conversion rate",
     "Page load time < 2 seconds"])

  /** The "chat" record of projects.js. */
  const ModalChat: Project := Project(
    "Live Chat Application",
    "Production",
    "Scalable real-time messaging application using WebSockets and Kafka to support thousands of concurrent users with persistent message history.",
    ["Real-time messaging with WebSockets",
     "Private and public chat rooms",
     "Persistent message history",
     "Online presence indicators",
     "Push notifications",
     "File and media sharing"],
    ["Spring Boot", "Spring Cloud", "Kafka", "WebSockets", "Redis", "React", "Docker", "Cloudflare CDN"],
    ["Horizontal scalability with Kafka",
     "Real-time message synchronization",
     "Managing user connections/disconnections"],
    ["Support for 10,000+ concurrent connections",
     "Average latency < 50ms",
     "99.9% uptime"])

  /** The "events" record of projects.js. */
  const ModalEvents: Project := Project(
    "Web Application for Academic Event Management",
    "Production",
    "Full-stack development of a microservices-based web platform for managing academic events at EHTP including conferences, workshops, and ceremonies.",
    ["Event creation and management",
     "Registration and ticketing system",
     "Speaker and program management",
     "Automatic certificate generation",
     "Analytics dashboard",
     "Feedback and evaluation system"],
    ["Spring Boot", "React", "PostgreSQL", "Docker", "Microservices", "PDF Generation"],
    ["Microservices architecture for modularity",
     "Handling peak loads during registrations",
     "Dynamic PDF document generation"],
    ["Used by 2,000+ students",
     "Managing 50+ events per year",
     "80% reduction in administrative time"])

  /** In either table a lookup finds a record for the four project ids and for no other string. */
  lemma LookupFindsExactlyProjectIds(id: string)
    ensures Lookup(CleanProjects(), id).Some? <==> id in ProjectIds
    ensures Lookup(ModalProjects(), id).Some? <==> id in ProjectIds
    ensures id == "api-integration" || id == "rentable" || id == "chat" || id == "events" <==> id in ProjectIds
  {
  }

  /** In main-clean.js the "api-integration" project is the one shown with the in-progress badge. */
  lemma ApiIntegrationInProgress()
    ensures RenderClean(CleanProjects()["api-integration"]).badge == Some(StatusProgress)
  {
    assert OccursAt("Development in Progress", "Progress", 15);
  }
}
